// The retry coordinator of web/src/connection.ts: one shared timer, the registered reads, the
// waiters of the next round, and cleanup closures that outlive the registration they belong to.
//
// `State` and `Step` say what each operation does; class `Coordinator` performs the operations on
// fields and is proved to do exactly that. A closure or a promise is identified by a number drawn
// from `nextId`. `promises` and `streak` are history, read by no branch.
module Connection {
  import opened Options

  type Signal = nat
  type Token = nat  // identity of one `unregister` closure

  datatype Status = Unknown | Online | Reconnecting | Degraded

  datatype Snapshot = Snapshot(status: Status, attempt: nat, nextRetryAt: Option<real>, retryingReads: nat)

  datatype Outcome = Resolved(cleanup: Token) | Rejected

  datatype Settlement = Settlement(outcome: Outcome, at: real)

  // `deadline` is the retry time in force when the waiter joined; `settlements` logs every call of
  // resolve or reject.
  datatype Waiter = Waiter(signal: Signal, cleanup: Token, deadline: real, settlements: seq<Settlement>)

  datatype Delays = Delays(initial: real, max: real) {
    ghost predicate Valid() { initial > 0.0 && max > 0.0 }
  }

  // A finite number option; None stands for an absent or non-finite one.
  function PositiveDelay(value: Option<real>, fallback: real): real {
    if value.Some? && value.value > 0.0 then value.value else fallback
  }

  function DelaysFrom(initial: Option<real>, max: Option<real>): (d: Delays)
    ensures d.Valid()
    ensures d.initial == 1000.0 || Some(d.initial) == initial
    ensures d.max == 60000.0 || Some(d.max) == max
    ensures initial.Some? && initial.value > 0.0 ==> d.initial == initial.value
    ensures max.Some? && max.value > 0.0 ==> d.max == max.value
  {
    Delays(PositiveDelay(initial, 1000.0), PositiveDelay(max, 60000.0))
  }

  function Pow2(n: nat): nat {
    if n == 0 then 1 else 2 * Pow2(n - 1)
  }

  function MinReal(a: real, b: real): real {
    if a <= b then a else b
  }

  // The delay before jitter of the `attempt`-th round.
  function BaseDelay(d: Delays, attempt: nat): real
    requires attempt > 0
  {
    MinReal(d.max, d.initial * Pow2(if attempt - 1 <= 6 then attempt - 1 else 6) as real)
  }

  datatype Op =
    | WaitForRetry(signal: Signal, random: real)
    | Unregister(signal: Signal, token: Token)
    | Abort(signal: Signal)
    | FireRound
    | NoteSuccess
    | NoteTransientTrouble
    | Tick(to: real)

  datatype State = State(
    delays: Delays,
    registered: map<Signal, Token>,
    waiters: map<Signal, nat>,
    timer: Option<real>,               // when the armed callback is due
    attempt: nat,
    nextRetryAt: Option<real>,
    lastObservation: Status,
    snapshot: Snapshot,
    abortListeners: map<Signal, seq<Token>>,
    aborted: set<Signal>,
    clock: real,
    nextId: nat,
    promises: map<nat, Waiter>,
    streak: seq<real>)                 // delays of the rounds scheduled since no read was registered

  function Initial(delays: Delays, clock: real): State {
    State(delays, map[], map[], None, 0, None, Unknown, Snapshot(Unknown, 0, None, 0),
          map[], {}, clock, 0, map[], [])
  }

  function Derived(s: State): Snapshot {
    Snapshot(if |s.registered| > 0 then Reconnecting else s.lastObservation, s.attempt, s.nextRetryAt, |s.registered|)
  }

  function Listeners(s: State, signal: Signal): seq<Token> {
    if signal in s.abortListeners then s.abortListeners[signal] else []
  }

  function Without(tokens: seq<Token>, token: Token): seq<Token> {
    if tokens == [] then []
    else if tokens[0] == token then Without(tokens[1..], token)
    else [tokens[0]] + Without(tokens[1..], token)
  }

  function Settle(promises: map<nat, Waiter>, id: nat, settlement: Settlement): map<nat, Waiter>
    requires id in promises
  {
    promises[id := promises[id].(settlements := promises[id].settlements + [settlement])]
  }

  function CancelRound(s: State): State {
    s.(timer := None, nextRetryAt := None)
  }

  // The jittered delay of the round that would be scheduled next.
  function NextDelay(s: State, random: real): real {
    BaseDelay(s.delays, s.attempt + 1) * (0.5 + random)
  }

  function ScheduleRound(s: State, delay: real): State {
    if s.timer.Some? then s
    else s.(attempt := s.attempt + 1, nextRetryAt := Some(s.clock + delay), timer := Some(s.clock + delay))
  }

  // Only an operation that has not registered yet adds a read and its abort listener.
  function RegisterRead(s: State, signal: Signal): State {
    s.(registered := s.registered[signal := s.nextId],
       abortListeners := s.abortListeners[signal := Listeners(s, signal) + [s.nextId]],
       nextId := s.nextId + 1)
  }

  function Registered(s: State, signal: Signal): State {
    if signal in s.registered then s else RegisterRead(s, signal)
  }

  // A new promise for a registered signal, due at the retry time now in force.
  function Enlist(s: State, signal: Signal): State
    requires signal in s.registered
  {
    s.(waiters := s.waiters[signal := s.nextId],
       promises := s.promises[s.nextId :=
         Waiter(signal, s.registered[signal], if s.nextRetryAt.Some? then s.nextRetryAt.value else s.clock, [])],
       nextId := s.nextId + 1)
  }

  function Join(s: State, signal: Signal, delay: real): State {
    Enlist(ScheduleRound(Registered(s, signal).(lastObservation := Degraded), delay), signal)
  }

  function RejectWaiter(s: State, signal: Signal): State {
    if signal in s.waiters && s.waiters[signal] in s.promises then
      s.(waiters := s.waiters - {signal},
         promises := Settle(s.promises, s.waiters[signal], Settlement(Rejected, s.clock)))
    else s.(waiters := s.waiters - {signal})
  }

  // The body of one `unregister` closure, past its identity check.
  function Release(s: State, signal: Signal, token: Token): State {
    var s1 := s.(registered := s.registered - {signal},
                 abortListeners := s.abortListeners[signal := Without(Listeners(s, signal), token)]);
    var s2 := RejectWaiter(s1, signal);
    var s3 := if s2.waiters == map[] then CancelRound(s2) else s2;
    if s3.registered == map[] then s3.(attempt := 0) else s3
  }

  predicate Owns(s: State, signal: Signal, token: Token) {
    signal in s.registered && s.registered[signal] == token
  }

  function RunCleanup(s: State, signal: Signal, token: Token): State {
    if Owns(s, signal, token) then Publish(Release(s, signal, token)) else s
  }

  function RunCleanups(s: State, signal: Signal, tokens: seq<Token>): State
    decreases |tokens|
  {
    if tokens == [] then s else RunCleanups(RunCleanup(s, signal, tokens[0]), signal, tokens[1..])
  }

  function ResolveAll(promises: map<nat, Waiter>, ids: set<nat>, at: real): map<nat, Waiter> {
    map id | id in promises ::
      if id in ids
      then promises[id].(settlements := promises[id].settlements + [Settlement(Resolved(promises[id].cleanup), at)])
      else promises[id]
  }

  function Round(s: State): State {
    s.(timer := None, nextRetryAt := None, waiters := map[],
       promises := ResolveAll(s.promises, s.waiters.Values, s.clock))
  }

  function Publish(s: State): State {
    s.(snapshot := Derived(s))
  }

  // Timers run on time: an armed one fires at its due time, and the clock never passes it.
  predicate Enabled(s: State, op: Op) {
    match op
    case WaitForRetry(_, random) => 0.0 <= random < 1.0
    case FireRound => s.timer == Some(s.clock)
    case Tick(to) => s.clock <= to && (s.timer.Some? ==> to <= s.timer.value)
    case _ => true
  }

  function Apply(s: State, op: Op): State {
    match op
    case WaitForRetry(signal, random) =>
      if signal in s.aborted || signal in s.waiters then s else Publish(Join(s, signal, NextDelay(s, random)))
    case Unregister(signal, token) => RunCleanup(s, signal, token)
    case Abort(signal) =>
      if signal in s.aborted then s
      else RunCleanups(s.(aborted := s.aborted + {signal}), signal, Listeners(s, signal))
    case FireRound => Publish(Round(s))
    case NoteSuccess => Publish(s.(lastObservation := Online))
    case NoteTransientTrouble => Publish(s.(lastObservation := Degraded))
    case Tick(to) => s.(clock := to)
  }

  // History of the current streak, kept from what an observer sees before and after an operation.
  function Observe(before: State, after: State): State {
    after.(streak :=
      if after.registered == map[] then []
      else if before.timer.None? && after.timer.Some? then before.streak + [after.timer.value - after.clock]
      else before.streak)
  }

  // A disabled operation leaves the state alone.
  function Step(s: State, op: Op): State {
    if Enabled(s, op) then Observe(s, Apply(s, op)) else s
  }

  function Run(s: State, ops: seq<Op>): State
    decreases |ops|
  {
    if ops == [] then s else Run(Step(s, ops[0]), ops[1..])
  }

  // ----- What every reachable state satisfies -----

  ghost predicate Pending(s: State, id: nat)
    requires id in s.promises
  {
    s.promises[id].signal in s.waiters && s.waiters[s.promises[id].signal] == id
  }

  ghost predicate SettledOnce(s: State, id: nat)
    requires id in s.promises
  {
    var w := s.promises[id];
    && |w.settlements| == 1
    && w.settlements[0].at <= w.deadline
    && (w.settlements[0].outcome.Resolved? ==>
          w.settlements[0] == Settlement(Resolved(w.cleanup), w.deadline))
  }

  ghost predicate ReadsOk(s: State) {
    && (forall signal :: signal in s.registered ==> s.registered[signal] < s.nextId && signal !in s.aborted)
    && (forall signal :: Listeners(s, signal) == if signal in s.registered then [s.registered[signal]] else [])
  }

  ghost predicate TimerOk(s: State) {
    && s.timer == s.nextRetryAt
    && (s.timer.Some? <==> s.waiters != map[])
    && (s.timer.Some? ==> s.clock <= s.timer.value)
    && (s.attempt == 0 <==> s.registered == map[])
  }

  ghost predicate WaitersOk(s: State) {
    && s.waiters.Keys <= s.registered.Keys
    && (forall signal :: signal in s.waiters ==>
          && s.waiters[signal] in s.promises
          && s.promises[s.waiters[signal]].signal == signal)
    && (forall id :: id in s.promises ==>
          && id < s.nextId
          && if Pending(s, id)
             then && s.promises[id].settlements == []
                  && s.nextRetryAt == Some(s.promises[id].deadline)
                  && s.registered[s.promises[id].signal] == s.promises[id].cleanup
             else SettledOnce(s, id))
  }

  ghost predicate Core(s: State) {
    ReadsOk(s) && TimerOk(s) && WaitersOk(s)
  }

  ghost predicate JitterOf(delay: real, base: real) {
    0.5 * base <= delay < 1.5 * base
  }

  ghost predicate StreakOk(s: State) {
    && |s.streak| == s.attempt
    && forall i :: 0 <= i < |s.streak| ==> JitterOf(s.streak[i], BaseDelay(s.delays, i + 1))
  }

  ghost predicate Inv(s: State) {
    s.delays.Valid() && Core(s) && StreakOk(s) && s.snapshot == Derived(s)
  }

  lemma JitterBounds(base: real, random: real)
    requires base > 0.0 && 0.0 <= random < 1.0
    ensures JitterOf(base * (0.5 + random), base) && base * (0.5 + random) > 0.0
  {}

  lemma {:induction false} BaseDelayPositive(d: Delays, attempt: nat)
    requires d.Valid() && attempt > 0
    ensures 0.0 < BaseDelay(d, attempt) <= d.max
  {
    PowersGrow(0, if attempt - 1 <= 6 then attempt - 1 else 6);
    ScaleGrows(d.initial, 1, Pow2(if attempt - 1 <= 6 then attempt - 1 else 6));
  }

  lemma {:induction false} PowersGrow(m: nat, n: nat)
    requires m <= n
    ensures 1 <= Pow2(m) <= Pow2(n)
    decreases n
  {
    if m < n {
      PowersGrow(m, n - 1);
    } else if n > 0 {
      PowersGrow(n - 1, n - 1);
    }
  }

  lemma ScaleGrows(x: real, a: nat, b: nat)
    requires x > 0.0 && a <= b
    ensures x * a as real <= x * b as real
  {}

  // Within a streak the base delay never falls, never passes the maximum, and stops growing at the
  // seventh round.
  lemma BackoffShape(d: Delays, i: nat, j: nat)
    requires d.Valid() && 0 < i <= j
    ensures 0.0 < BaseDelay(d, i) <= BaseDelay(d, j) <= d.max
    ensures i >= 7 ==> BaseDelay(d, i) == BaseDelay(d, j)
  {}

  lemma RegisterKeepsReads(s: State, signal: Signal)
    requires ReadsOk(s) && signal !in s.registered && signal !in s.aborted
    ensures ReadsOk(RegisterRead(s, signal))
  {}

  lemma JoinKeepsReads(s: State, signal: Signal, delay: real)
    requires ReadsOk(s) && signal !in s.aborted
    ensures ReadsOk(Join(s, signal, delay))
  {
    if signal !in s.registered { RegisterKeepsReads(s, signal); }
    var t := Join(s, signal, delay);
    var s1 := Registered(s, signal);
    assert t.registered == s1.registered && t.abortListeners == s1.abortListeners;
    assert forall other :: Listeners(t, other) == Listeners(s1, other);
  }

  lemma JoinKeepsTimer(s: State, signal: Signal, delay: real)
    requires TimerOk(s) && WaitersOk(s) && delay > 0.0
    ensures TimerOk(Join(s, signal, delay))
  {
    var t := Join(s, signal, delay);
    assert signal in t.waiters && signal in t.registered;
    if s.timer.Some? {
      var other :| other in s.waiters;
      assert other in s.registered;
    }
  }

  lemma RegisteredKeepsWaiters(s: State, signal: Signal)
    requires WaitersOk(s) && signal !in s.waiters
    ensures WaitersOk(Registered(s, signal))
  {}

  lemma ScheduleKeepsWaiters(s: State, delay: real)
    requires WaitersOk(s) && (s.timer.None? ==> s.waiters == map[])
    ensures WaitersOk(ScheduleRound(s, delay))
  {}

  lemma EnlistKeepsWaiters(s: State, signal: Signal)
    requires WaitersOk(s) && signal in s.registered && signal !in s.waiters && s.nextRetryAt.Some?
    ensures WaitersOk(Enlist(s, signal))
  {}

  lemma JoinKeepsWaiters(s: State, signal: Signal, delay: real)
    requires TimerOk(s) && WaitersOk(s) && signal !in s.waiters
    ensures WaitersOk(Join(s, signal, delay))
  {
    RegisteredKeepsWaiters(s, signal);
    var s1 := Registered(s, signal).(lastObservation := Degraded);
    assert WaitersOk(s1) by { assert forall id :: id in s1.promises ==> (Pending(s1, id) <==> Pending(s, id)); }
    ScheduleKeepsWaiters(s1, delay);
    EnlistKeepsWaiters(ScheduleRound(s1, delay), signal);
  }

  lemma RemoveListener(s: State, signal: Signal, token: Token)
    requires Owns(s, signal, token)
    requires forall other :: Listeners(s, other) == if other in s.registered then [s.registered[other]] else []
    ensures var t := Release(s, signal, token);
            forall other :: Listeners(t, other) == if other in t.registered then [t.registered[other]] else []
  {
    var t := Release(s, signal, token);
    assert Listeners(s, signal) == [token];
    assert Without([token], token) == Without([], token) == [];
    assert t.abortListeners == s.abortListeners[signal := []];
    assert forall other :: other != signal ==> Listeners(t, other) == Listeners(s, other);
  }

  lemma ReleaseKeepsTimer(s: State, signal: Signal, token: Token)
    requires TimerOk(s) && WaitersOk(s) && Owns(s, signal, token)
    ensures TimerOk(Release(s, signal, token))
  {}

  // What a release leaves, whatever else it does.
  ghost predicate Released(s: State, t: State, signal: Signal) {
    && t.registered == s.registered - {signal}
    && t.waiters == s.waiters - {signal}
    && (t.waiters != map[] ==> t.nextRetryAt == s.nextRetryAt)
    && t.nextId == s.nextId
    && t.promises ==
         if signal in s.waiters && s.waiters[signal] in s.promises
         then Settle(s.promises, s.waiters[signal], Settlement(Rejected, s.clock))
         else s.promises
  }

  lemma ReleasedKeepsWaiters(s: State, t: State, signal: Signal)
    requires TimerOk(s) && WaitersOk(s) && Released(s, t, signal)
    ensures WaitersOk(t)
  {}

  lemma ReleaseKeepsWaiters(s: State, signal: Signal, token: Token)
    requires TimerOk(s) && WaitersOk(s) && Owns(s, signal, token)
    ensures WaitersOk(Release(s, signal, token))
  {
    ReleaseEffect(s, signal, token);
    ReleasedKeepsWaiters(s, Release(s, signal, token), signal);
  }

  lemma Published(s: State, t: State)
    requires t.delays == s.delays && s.delays.Valid() && Core(t) && StreakOk(s)
    requires t.streak == s.streak
    requires
      || t.registered == map[]
      || (t.attempt == s.attempt && (s.timer.Some? || t.timer.None?))
      || (t.attempt == s.attempt + 1 && s.timer.None? && t.timer.Some?
          && JitterOf(t.timer.value - t.clock, BaseDelay(s.delays, s.attempt + 1)))
    ensures Inv(Observe(s, Publish(t)))
  {
    CoreIgnoresHistory(t, Derived(t), Observe(s, Publish(t)).streak);
    StreakGrows(s, t);
  }

  lemma CoreIgnoresHistory(t: State, snapshot: Snapshot, streak: seq<real>)
    requires Core(t)
    ensures Core(t.(snapshot := snapshot, streak := streak))
  {
    var u := t.(snapshot := snapshot, streak := streak);
    assert ReadsOk(u) by { assert forall other :: Listeners(u, other) == Listeners(t, other); }
    assert TimerOk(u);
    assert WaitersOk(u) by { assert forall id :: id in t.promises ==> (Pending(u, id) <==> Pending(t, id)); }
  }

  lemma StreakGrows(s: State, t: State)
    requires t.delays == s.delays && StreakOk(s) && ReadsOk(t) && t.streak == s.streak
    requires t.registered == map[] ==> t.attempt == 0
    requires
      || t.registered == map[]
      || (t.attempt == s.attempt && (s.timer.Some? || t.timer.None?))
      || (t.attempt == s.attempt + 1 && s.timer.None? && t.timer.Some?
          && JitterOf(t.timer.value - t.clock, BaseDelay(s.delays, s.attempt + 1)))
    ensures StreakOk(Observe(s, Publish(t)))
  {}

  lemma JoinWithDelay(s: State, signal: Signal, delay: real)
    requires Inv(s) && signal !in s.aborted && signal !in s.waiters
    requires delay > 0.0 && JitterOf(delay, BaseDelay(s.delays, s.attempt + 1))
    ensures Inv(Observe(s, Publish(Join(s, signal, delay))))
  {
    JoinKeepsReads(s, signal, delay);
    JoinKeepsTimer(s, signal, delay);
    JoinKeepsWaiters(s, signal, delay);
    var t := Join(s, signal, delay);
    assert t.streak == s.streak && t.delays == s.delays;
    if s.timer.None? {
      assert t.timer.value - t.clock == delay;
    }
    Published(s, t);
  }

  lemma JoinKeepsInv(s: State, signal: Signal, random: real)
    requires Inv(s) && 0.0 <= random < 1.0
    requires signal !in s.aborted && signal !in s.waiters
    ensures Inv(Observe(s, Publish(Join(s, signal, NextDelay(s, random)))))
  {
    BaseDelayPositive(s.delays, s.attempt + 1);
    JitterBounds(BaseDelay(s.delays, s.attempt + 1), random);
    JoinWithDelay(s, signal, NextDelay(s, random));
  }

  lemma ReleaseKeepsInv(s: State, signal: Signal, token: Token)
    requires s.delays.Valid() && TimerOk(s) && WaitersOk(s) && StreakOk(s) && Owns(s, signal, token)
    requires forall other :: other in s.registered ==>
               s.registered[other] < s.nextId && (other in s.aborted ==> other == signal)
    requires forall other :: Listeners(s, other) == if other in s.registered then [s.registered[other]] else []
    ensures Inv(Observe(s, Publish(Release(s, signal, token))))
  {
    RemoveListener(s, signal, token);
    ReleaseKeepsTimer(s, signal, token);
    ReleaseKeepsWaiters(s, signal, token);
    Published(s, Release(s, signal, token));
  }

  lemma CleanupKeepsInv(s: State, signal: Signal, token: Token)
    requires Inv(s)
    ensures Inv(Observe(s, RunCleanup(s, signal, token)))
  {
    if Owns(s, signal, token) {
      ReleaseKeepsInv(s, signal, token);
    } else {
      assert Observe(s, s) == s;
    }
  }

  // An abort listener belongs to the one read registered for its signal, so an abort runs at most
  // one cleanup.
  lemma AbortRunsOneCleanup(s: State, signal: Signal)
    requires ReadsOk(s) && signal !in s.aborted
    ensures var s1 := s.(aborted := s.aborted + {signal});
            Apply(s, Abort(signal)) ==
              if signal in s.registered then Publish(Release(s1, signal, s.registered[signal])) else s1
  {
    var s1 := s.(aborted := s.aborted + {signal});
    if signal in s.registered {
      var token := s.registered[signal];
      assert Listeners(s, signal) == [token];
      assert RunCleanups(s1, signal, [token]) == RunCleanups(RunCleanup(s1, signal, token), signal, []);
    }
  }

  lemma MarkAborted(s: State, signal: Signal)
    requires Inv(s)
    ensures var s1 := s.(aborted := s.aborted + {signal});
      && TimerOk(s1) && WaitersOk(s1) && StreakOk(s1) && Publish(s1) == s1
      && (forall other :: Listeners(s1, other) == if other in s.registered then [s.registered[other]] else [])
  {}

  lemma AbortKeepsInv(s: State, signal: Signal)
    requires Inv(s)
    ensures Inv(Observe(s, Apply(s, Abort(signal))))
  {
    if signal !in s.aborted {
      AbortRunsOneCleanup(s, signal);
      MarkAborted(s, signal);
      var s1 := s.(aborted := s.aborted + {signal});
      if signal in s.registered {
        ReleaseKeepsInv(s1, signal, s.registered[signal]);
        ObserveAlike(s, s1, Publish(Release(s1, signal, s.registered[signal])));
      } else {
        Published(s, s1);
      }
    } else {
      assert Observe(s, s) == s;
    }
  }

  lemma ObserveAlike(s: State, s1: State, t: State)
    requires s.timer == s1.timer && s.streak == s1.streak
    ensures Observe(s, t) == Observe(s1, t)
  {}

  lemma RoundKeepsInv(s: State)
    requires Inv(s) && s.timer == Some(s.clock)
    ensures Inv(Observe(s, Publish(Round(s))))
  {
    var t := Round(s);
    assert WaitersOk(t) by {
      forall id | id in t.promises
        ensures id < t.nextId && SettledOnce(t, id)
      {
        if Pending(s, id) {
          assert s.waiters[s.promises[id].signal] == id;
          assert id in s.waiters.Values;
        } else {
          assert id !in s.waiters.Values;
        }
      }
    }
    assert ReadsOk(t) by { assert forall other :: Listeners(t, other) == Listeners(s, other); }
    Published(s, t);
  }

  lemma QuietStepKeepsInv(s: State, t: State)
    requires Inv(s) && s.clock <= t.clock && (s.timer.Some? ==> t.clock <= s.timer.value)
    requires t == s.(lastObservation := t.lastObservation, clock := t.clock, snapshot := t.snapshot)
    ensures Inv(Observe(s, Publish(t)))
  {
    assert ReadsOk(t) by { assert forall other :: Listeners(t, other) == Listeners(s, other); }
    assert WaitersOk(t) by { assert forall id :: id in s.promises ==> (Pending(t, id) <==> Pending(s, id)); }
    Published(s, t);
  }

  lemma StepKeepsInv(s: State, op: Op)
    requires Inv(s)
    ensures Inv(Step(s, op))
  {
    if Enabled(s, op) {
      match op {
        case WaitForRetry(signal, random) =>
          if signal !in s.aborted && signal !in s.waiters {
            JoinKeepsInv(s, signal, random);
          } else {
            assert Observe(s, s) == s;
          }
        case Unregister(signal, token) => CleanupKeepsInv(s, signal, token);
        case Abort(signal) => AbortKeepsInv(s, signal);
        case FireRound => RoundKeepsInv(s);
        case NoteSuccess => QuietStepKeepsInv(s, s.(lastObservation := Online));
        case NoteTransientTrouble => QuietStepKeepsInv(s, s.(lastObservation := Degraded));
        case Tick(to) =>
          QuietStepKeepsInv(s, s.(clock := to));
          assert Publish(s.(clock := to)) == s.(clock := to);
      }
    }
  }

  lemma {:induction false} RunKeepsInv(s: State, ops: seq<Op>)
    requires Inv(s)
    ensures Inv(Run(s, ops))
    decreases |ops|
  {
    if ops != [] {
      StepKeepsInv(s, ops[0]);
      RunKeepsInv(Step(s, ops[0]), ops[1..]);
    }
  }

  // ----- Main results, over every run from the initial state -----

  lemma InitialInv(delays: Delays, clock: real)
    requires delays.Valid()
    ensures Inv(Initial(delays, clock))
  {}

  // In every reachable state: a waiter belongs to a registered read; the timer, the retry time and
  // the waiters come and go together; the attempt counter is zero exactly when nothing is
  // registered and otherwise counts the rounds of this streak; what is published is what holds.
  lemma ReachableStates(delays: Delays, clock: real, ops: seq<Op>)
    requires delays.Valid()
    ensures var s := Run(Initial(delays, clock), ops);
      && Inv(s)
      && s.waiters.Keys <= s.registered.Keys
      && (s.timer.Some? <==> s.waiters != map[])
      && (s.timer.Some? <==> s.nextRetryAt.Some?)
      && (s.attempt == 0 <==> s.registered == map[])
      && s.attempt == |s.streak|
      && s.snapshot == Derived(s)
  {
    InitialInv(delays, clock);
    RunKeepsInv(Initial(delays, clock), ops);
    var s := Run(Initial(delays, clock), ops);
    assert forall signal :: signal in s.waiters ==> signal in s.registered;
  }

  // ----- Delays -----

  // The first delay is the initial one, and each of the next six doubles the one before, all capped.
  lemma BackoffDoubles(d: Delays, n: nat)
    requires d.Valid() && n > 0
    ensures BaseDelay(d, 1) == MinReal(d.initial, d.max)
    ensures n <= 6 ==> BaseDelay(d, n + 1) == MinReal(2.0 * BaseDelay(d, n), d.max)
    ensures n >= 7 ==> BaseDelay(d, n) == BaseDelay(d, 7)
  {
    assert Pow2(0) == 1;
    if n <= 6 {
      assert Pow2(n) == 2 * Pow2(n - 1);
      DoubleReal(d.initial, Pow2(n - 1));
    }
  }

  lemma DoubleReal(x: real, p: nat)
    ensures x * (2 * p) as real == 2.0 * (x * p as real)
  {
    assert (2 * p) as real == 2.0 * p as real;
  }

  // Delays of one streak: the first is jittered around the initial delay, each later one around twice
  // the base of the one before it until the seventh, all under the maximum; a jittered delay is at least
  // half and less than one and a half times its base.
  lemma StreakBacksOff(s: State, i: nat, j: nat)
    requires Inv(s) && i <= j < |s.streak|
    ensures JitterOf(s.streak[0], if s.delays.initial <= s.delays.max then s.delays.initial else s.delays.max)
    ensures JitterOf(s.streak[i], BaseDelay(s.delays, i + 1))
    ensures 0 < i <= 6 ==> BaseDelay(s.delays, i + 1) == MinReal(2.0 * BaseDelay(s.delays, i), s.delays.max)
    ensures BaseDelay(s.delays, i + 1) <= BaseDelay(s.delays, j + 1) <= s.delays.max
    ensures i >= 6 ==> BaseDelay(s.delays, i + 1) == BaseDelay(s.delays, j + 1)
  {
    BackoffDoubles(s.delays, 1);
    if i > 0 { BackoffDoubles(s.delays, i); }
    BackoffShape(s.delays, i + 1, j + 1);
  }

  // The round that a waiter starts is due the jittered delay from now: the random number in [0, 1)
  // moves it evenly from half to one and a half of the base, which for the first round of a streak is
  // the initial delay.
  lemma RoundIsDue(s: State, signal: Signal, random: real, base: real, delay: real)
    requires Inv(s) && signal !in s.aborted && signal !in s.waiters && s.timer.None? && 0.0 <= random < 1.0
    requires base == if s.registered == map[] then MinReal(s.delays.initial, s.delays.max)
                     else BaseDelay(s.delays, s.attempt + 1)
    requires delay == base * (0.5 + random)
    ensures var t := Step(s, WaitForRetry(signal, random));
      t.attempt == s.attempt + 1 && t.nextRetryAt == Some(s.clock + delay) && t.timer == t.nextRetryAt
  {
    assert s.registered == map[] ==> s.attempt == 0;
    DelayIs(s, random, base, delay);
    StepJoins(s, signal, random);
    JoinIsDue(s, signal, NextDelay(s, random));
  }

  lemma DelayIs(s: State, random: real, base: real, delay: real)
    requires s.delays.Valid() && delay == base * (0.5 + random)
    requires base == BaseDelay(s.delays, s.attempt + 1)
          || (s.attempt == 0 && base == MinReal(s.delays.initial, s.delays.max))
    ensures NextDelay(s, random) == delay
  {
    BackoffDoubles(s.delays, 1);
    assert base == BaseDelay(s.delays, s.attempt + 1);
  }

  lemma StepJoins(s: State, signal: Signal, random: real)
    requires signal !in s.aborted && signal !in s.waiters && 0.0 <= random < 1.0
    ensures var t, j := Step(s, WaitForRetry(signal, random)), Join(s, signal, NextDelay(s, random));
      t.nextRetryAt == j.nextRetryAt && t.timer == j.timer && t.attempt == j.attempt
  {}

  lemma JoinIsDue(s: State, signal: Signal, delay: real)
    requires s.timer.None?
    ensures var t := Join(s, signal, delay);
      t.nextRetryAt == Some(s.clock + delay) && t.timer == t.nextRetryAt && t.attempt == s.attempt + 1
  {}

  // ----- What subscribers see -----

  // Reconnecting while any read is registered; otherwise the last observation made.
  lemma SnapshotTells(s: State)
    requires Inv(s)
    ensures s.snapshot.retryingReads == |s.registered| && s.snapshot.nextRetryAt == s.nextRetryAt
    ensures s.snapshot.attempt == |s.streak|
    ensures s.registered != map[] ==> s.snapshot.status == Reconnecting
    ensures s.registered == map[] ==> s.snapshot.status == s.lastObservation
  {
    if s.registered != map[] {
      var signal :| signal in s.registered;
      assert |s.registered| > 0;
    }
  }

  lemma SuccessShows(s: State)
    requires Inv(s)
    ensures var t := Step(s, NoteSuccess);
      && t.lastObservation == Online && t.registered == s.registered
      && t.snapshot.status == if s.registered == map[] then Online else Reconnecting
  {
    StepKeepsInv(s, NoteSuccess);
    SnapshotTells(Step(s, NoteSuccess));
  }

  // What the operations of a run observed last: a success, trouble, or nothing yet.
  function LastObserved(s: State, ops: seq<Op>): Status
    decreases |ops|
  {
    if ops == [] then s.lastObservation
    else
      var op := ops[|ops| - 1];
      var before := Run(s, ops[..|ops| - 1]);
      if op.NoteSuccess? then Online
      else if op.NoteTransientTrouble? then Degraded
      else if op.WaitForRetry? && Enabled(before, op) && op.signal !in before.aborted && op.signal !in before.waiters
      then Degraded
      else LastObserved(s, ops[..|ops| - 1])
  }

  lemma {:induction false} RunSplit(s: State, ops: seq<Op>)
    requires ops != []
    ensures Run(s, ops) == Step(Run(s, ops[..|ops| - 1]), ops[|ops| - 1])
    decreases |ops|
  {
    if |ops| > 1 {
      RunSplit(Step(s, ops[0]), ops[1..]);
      assert ops[1..][..|ops| - 2] == ops[..|ops| - 1][1..];
    }
  }

  lemma {:induction false} CleanupsObserveNothing(s: State, signal: Signal, tokens: seq<Token>)
    ensures RunCleanups(s, signal, tokens).lastObservation == s.lastObservation
    decreases |tokens|
  {
    if tokens != [] {
      CleanupsObserveNothing(RunCleanup(s, signal, tokens[0]), signal, tokens[1..]);
    }
  }

  lemma {:induction false} ObservationIsTheLast(s: State, ops: seq<Op>)
    ensures Run(s, ops).lastObservation == LastObserved(s, ops)
    decreases |ops|
  {
    if ops != [] {
      RunSplit(s, ops);
      ObservationIsTheLast(s, ops[..|ops| - 1]);
      OneObservation(Run(s, ops[..|ops| - 1]), ops[|ops| - 1]);
    }
  }

  lemma OneObservation(s: State, op: Op)
    ensures Step(s, op).lastObservation ==
      if op.NoteSuccess? then Online
      else if op.NoteTransientTrouble? then Degraded
      else if op.WaitForRetry? && Enabled(s, op) && op.signal !in s.aborted && op.signal !in s.waiters then Degraded
      else s.lastObservation
  {
    match op {
      case Abort(signal) =>
        CleanupsObserveNothing(s.(aborted := s.aborted + {signal}), signal, Listeners(s, signal));
      case _ =>
    }
  }

  // What a promise was created with never changes, and a settlement is never taken back.
  ghost predicate PromiseKept(s: State, t: State, id: nat)
    requires id in s.promises
  {
    && id in t.promises
    && t.promises[id].signal == s.promises[id].signal
    && t.promises[id].cleanup == s.promises[id].cleanup
    && t.promises[id].deadline == s.promises[id].deadline
    && s.promises[id].settlements <= t.promises[id].settlements
  }

  lemma ReleaseEffect(s: State, signal: Signal, token: Token)
    requires Owns(s, signal, token)
    ensures Released(s, Release(s, signal, token), signal)
  {}

  lemma JoinEffect(s: State, signal: Signal, delay: real)
    ensures var t := Join(s, signal, delay);
      && s.nextId < t.nextId
      && (forall id :: id in s.promises && id < s.nextId ==> id in t.promises && t.promises[id] == s.promises[id])
      && t.registered == if signal in s.registered then s.registered else s.registered[signal := s.nextId]
  {}

  lemma JoinKeepsPromises(s: State, signal: Signal, delay: real, id: nat)
    requires WaitersOk(s) && id in s.promises
    ensures PromiseKept(s, Join(s, signal, delay), id)
  {}

  lemma CleanupKeepsPromises(s: State, signal: Signal, token: Token, id: nat)
    requires id in s.promises
    ensures PromiseKept(s, RunCleanup(s, signal, token), id)
  {
    if Owns(s, signal, token) { ReleaseEffect(s, signal, token); }
  }

  lemma {:induction false} CleanupsKeepPromises(s: State, signal: Signal, tokens: seq<Token>, id: nat)
    requires id in s.promises
    ensures PromiseKept(s, RunCleanups(s, signal, tokens), id)
    decreases |tokens|
  {
    if tokens != [] {
      CleanupKeepsPromises(s, signal, tokens[0], id);
      CleanupsKeepPromises(RunCleanup(s, signal, tokens[0]), signal, tokens[1..], id);
    }
  }

  lemma ApplyKeepsPromises(s: State, op: Op, id: nat)
    requires WaitersOk(s) && id in s.promises
    ensures PromiseKept(s, Apply(s, op), id)
  {
    match op {
      case Abort(signal) =>
        CleanupsKeepPromises(s.(aborted := s.aborted + {signal}), signal, Listeners(s, signal), id);
      case Unregister(signal, token) => CleanupKeepsPromises(s, signal, token, id);
      case WaitForRetry(signal, random) => JoinKeepsPromises(s, signal, NextDelay(s, random), id);
      case _ =>
    }
  }

  lemma StepKeepsPromises(s: State, op: Op, id: nat)
    requires Inv(s) && id in s.promises
    ensures PromiseKept(s, Step(s, op), id)
  {
    ApplyKeepsPromises(s, op, id);
  }

  lemma {:induction false} RunKeepsPromises(s: State, ops: seq<Op>, id: nat)
    requires Inv(s) && id in s.promises
    ensures PromiseKept(s, Run(s, ops), id)
    decreases |ops|
  {
    if ops != [] {
      StepKeepsInv(s, ops[0]);
      StepKeepsPromises(s, ops[0], id);
      RunKeepsPromises(Step(s, ops[0]), ops[1..], id);
    }
  }

  // A waiter that joins is promised the retry time then in force. However the run goes on, either
  // it still waits and that time has not passed, or it was settled exactly once and no later: by
  // its round at exactly that time, or by a rejection before it.
  lemma WaiterSettlesOnTime(s: State, signal: Signal, random: real, ops: seq<Op>)
    requires Inv(s) && signal !in s.aborted && signal !in s.waiters && 0.0 <= random < 1.0
    ensures var joined := Step(s, WaitForRetry(signal, random));
      && signal in joined.waiters && joined.nextRetryAt.Some?
      && (s.timer.Some? ==> joined.nextRetryAt == s.nextRetryAt)
      && var id, end := joined.waiters[signal], Run(joined, ops);
      && id in end.promises
      && end.promises[id].deadline == joined.nextRetryAt.value
      && if Pending(end, id)
         then end.promises[id].settlements == [] && end.clock <= joined.nextRetryAt.value
         else SettledOnce(end, id)
  {
    var joined := Step(s, WaitForRetry(signal, random));
    StepKeepsInv(s, WaitForRetry(signal, random));
    var id := joined.waiters[signal];
    RunKeepsInv(joined, ops);
    RunKeepsPromises(joined, ops, id);
    assert Pending(joined, id);
  }

  // Why a waiting promise settles: its round resolves it with its own cleanup, its own cleanup or its
  // signal's abort rejects it, and nothing else touches it.
  lemma WhySettled(s: State, op: Op, id: nat)
    requires Inv(s) && id in s.promises && Pending(s, id) && Enabled(s, op)
    ensures var w := s.promises[id]; var t := Step(s, op);
      id in t.promises && t.promises[id].settlements ==
        if op.FireRound? then [Settlement(Resolved(w.cleanup), s.clock)]
        else if op == Unregister(w.signal, w.cleanup) || op == Abort(w.signal) then [Settlement(Rejected, s.clock)]
        else []
  {
    match op {
      case Unregister(signal, token) =>
        if Owns(s, signal, token) { ReleaseSettles(s, signal, token, id); }
      case Abort(signal) =>
        if signal !in s.aborted {
          AbortRunsOneCleanup(s, signal);
          if signal in s.registered { AbortSettles(s, signal, id); }
        }
      case WaitForRetry(signal, random) =>
        if signal !in s.aborted && signal !in s.waiters { JoinEffect(s, signal, NextDelay(s, random)); }
      case FireRound => RoundSettles(s, id);
      case _ =>
    }
  }

  lemma ReleaseSettles(s: State, signal: Signal, token: Token, id: nat)
    requires WaitersOk(s) && id in s.promises && Pending(s, id) && Owns(s, signal, token)
    ensures var w := s.promises[id]; var t := Release(s, signal, token);
      id in t.promises && t.promises[id].settlements ==
        if signal == w.signal then [Settlement(Rejected, s.clock)] else []
  {
    ReleaseEffect(s, signal, token);
  }

  lemma AbortSettles(s: State, signal: Signal, id: nat)
    requires WaitersOk(s) && id in s.promises && Pending(s, id) && signal in s.registered
    ensures var w := s.promises[id];
      var t := Release(s.(aborted := s.aborted + {signal}), signal, s.registered[signal]);
      id in t.promises && t.promises[id].settlements ==
        if signal == w.signal then [Settlement(Rejected, s.clock)] else []
  {
    var s1 := s.(aborted := s.aborted + {signal});
    assert WaitersOk(s1) by { assert forall k :: k in s.promises ==> (Pending(s1, k) <==> Pending(s, k)); }
    ReleaseSettles(s1, signal, s.registered[signal], id);
  }

  lemma RoundSettles(s: State, id: nat)
    requires WaitersOk(s) && id in s.promises && Pending(s, id)
    ensures id in Round(s).promises
    ensures Round(s).promises[id].settlements == [Settlement(Resolved(s.promises[id].cleanup), s.clock)]
  {
    assert s.waiters[s.promises[id].signal] == id;
    assert id in s.waiters.Values;
  }

  // Dropping a read cancels the round only when it leaves nobody waiting.
  lemma ReleaseCancelsLast(s: State, signal: Signal, token: Token)
    requires Release(s, signal, token).waiters != map[]
    ensures Release(s, signal, token).timer == s.timer && Release(s, signal, token).nextRetryAt == s.nextRetryAt
  {}

  lemma AbortCancelsLast(s: State, signal: Signal)
    requires ReadsOk(s) && signal !in s.aborted && Apply(s, Abort(signal)).waiters != map[]
    ensures Apply(s, Abort(signal)).timer == s.timer && Apply(s, Abort(signal)).nextRetryAt == s.nextRetryAt
  {
    AbortRunsOneCleanup(s, signal);
    if signal in s.registered {
      ReleaseCancelsLast(s.(aborted := s.aborted + {signal}), signal, s.registered[signal]);
    }
  }

  lemma JoinSharesTheRound(s: State, signal: Signal, delay: real)
    requires s.timer.Some?
    ensures Join(s, signal, delay).timer == s.timer && Join(s, signal, delay).nextRetryAt == s.nextRetryAt
  {}

  // A round is only ever cancelled when nobody waits: while somebody still does, every operation
  // but the round itself leaves the retry time alone.
  lemma NoRoundCancelledUnderAWaiter(s: State, op: Op)
    requires Inv(s) && s.timer.Some? && op != FireRound && Step(s, op).waiters != map[]
    ensures Step(s, op).timer == s.timer && Step(s, op).nextRetryAt == s.nextRetryAt
  {
    match op {
      case Abort(signal) => if signal !in s.aborted { AbortCancelsLast(s, signal); }
      case Unregister(signal, token) =>
        if Owns(s, signal, token) { ReleaseCancelsLast(s, signal, token); }
      case WaitForRetry(signal, random) => JoinSharesTheRound(s, signal, NextDelay(s, random));
      case _ =>
    }
  }

  // Token `token` is spent for `signal`: issued, and no longer the registered one.
  ghost predicate Spent(s: State, signal: Signal, token: Token) {
    token < s.nextId && !Owns(s, signal, token)
  }

  lemma CleanupKeepsSpent(s: State, other: Signal, old': Token, signal: Signal, token: Token)
    requires Spent(s, signal, token)
    ensures Spent(RunCleanup(s, other, old'), signal, token)
  {}

  lemma {:induction false} CleanupsKeepSpent(s: State, other: Signal, tokens: seq<Token>, signal: Signal, token: Token)
    requires Spent(s, signal, token)
    ensures Spent(RunCleanups(s, other, tokens), signal, token)
    decreases |tokens|
  {
    if tokens != [] {
      CleanupKeepsSpent(s, other, tokens[0], signal, token);
      CleanupsKeepSpent(RunCleanup(s, other, tokens[0]), other, tokens[1..], signal, token);
    }
  }

  lemma ApplyKeepsSpent(s: State, op: Op, signal: Signal, token: Token)
    requires Spent(s, signal, token)
    ensures Spent(Apply(s, op), signal, token)
  {
    match op {
      case Abort(other) =>
        CleanupsKeepSpent(s.(aborted := s.aborted + {other}), other, Listeners(s, other), signal, token);
      case Unregister(other, old') => CleanupKeepsSpent(s, other, old', signal, token);
      case WaitForRetry(other, random) => JoinEffect(s, other, NextDelay(s, random));
      case _ =>
    }
  }

  // Once a cleanup closure has been superseded, running it changes nothing, at any later time and
  // whatever was registered for its signal since.
  lemma {:induction false} StaleCleanupIsInert(s: State, ops: seq<Op>, signal: Signal, token: Token)
    requires Inv(s) && Spent(s, signal, token)
    ensures Step(Run(s, ops), Unregister(signal, token)) == Run(s, ops)
    decreases |ops|
  {
    if ops == [] {
      assert Observe(s, s) == s;
    } else {
      StepKeepsInv(s, ops[0]);
      ApplyKeepsSpent(s, ops[0], signal, token);
      StaleCleanupIsInert(Step(s, ops[0]), ops[1..], signal, token);
    }
  }

  // ----- Listeners that call back into the coordinator -----

  // One call together with what the subscribed listeners do, in order, should it notify them.
  datatype Call = Call(op: Op, reactions: seq<Call>)

  function Perform(s: State, call: Call): State
    decreases call, |call.reactions| + 2
  {
    var t := Step(s, call.op);
    if t.snapshot == s.snapshot then t else PerformAll(t, call, 0)
  }

  function PerformAll(s: State, call: Call, from: nat): State
    requires from <= |call.reactions|
    decreases call, |call.reactions| - from + 1
  {
    if from == |call.reactions| then s
    else PerformAll(Perform(s, call.reactions[from]), call, from + 1)
  }

  function Trace(s: State, call: Call): seq<Op>
    decreases call, |call.reactions| + 2
  {
    var t := Step(s, call.op);
    [call.op] + if t.snapshot == s.snapshot then [] else TraceAll(t, call, 0)
  }

  function TraceAll(s: State, call: Call, from: nat): seq<Op>
    requires from <= |call.reactions|
    decreases call, |call.reactions| - from + 1
  {
    if from == |call.reactions| then []
    else Trace(s, call.reactions[from]) + TraceAll(Perform(s, call.reactions[from]), call, from + 1)
  }

  lemma {:induction false} RunConcat(s: State, a: seq<Op>, b: seq<Op>)
    ensures Run(s, a + b) == Run(Run(s, a), b)
    decreases |a|
  {
    if a == [] {
      assert a + b == b;
    } else {
      assert (a + b)[0] == a[0] && (a + b)[1..] == a[1..] + b;
      RunConcat(Step(s, a[0]), a[1..], b);
    }
  }

  // However deep listeners re-enter, the outcome is that of performing the same operations one
  // after the other, so everything proved of runs holds, and the snapshot published last is current.
  lemma {:induction false} ReentrancyLinearizes(s: State, call: Call)
    requires Inv(s)
    ensures Perform(s, call) == Run(s, Trace(s, call))
    ensures Inv(Perform(s, call)) && Perform(s, call).snapshot == Derived(Perform(s, call))
    decreases call, |call.reactions| + 2
  {
    var t := Step(s, call.op);
    StepKeepsInv(s, call.op);
    assert Run(t, []) == t && Run(s, [call.op]) == t by { assert [call.op][1..] == []; }
    if t.snapshot != s.snapshot {
      ReactionsLinearize(t, call, 0);
      RunConcat(s, [call.op], TraceAll(t, call, 0));
    }
  }

  lemma {:induction false} ReactionsLinearize(s: State, call: Call, from: nat)
    requires Inv(s) && from <= |call.reactions|
    ensures PerformAll(s, call, from) == Run(s, TraceAll(s, call, from))
    ensures Inv(PerformAll(s, call, from))
    decreases call, |call.reactions| - from + 1
  {
    if from < |call.reactions| {
      var next := call.reactions[from];
      ReentrancyLinearizes(s, next);
      ReactionsLinearize(Perform(s, next), call, from + 1);
      RunConcat(s, Trace(s, next), TraceAll(Perform(s, next), call, from + 1));
    }
  }
}
