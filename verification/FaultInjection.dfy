// One pause point of crates/harnx-a2a-server/src/fault_injection.rs, under any interleaving of
// visits, arming and guard drops. Each event is one atomic action: an atomic counter operation, a
// critical section of the lock, a watch update, or a semaphore operation.
//
// `State` and `Next` say what an action does; class `Point` performs it on the point's own cells.
module FaultInjection {
  import opened Options

  type Gate = nat

  // How far one call of `checkpoint` has come. `visit` is its local variable, `gate` what its
  // critical section took.
  datatype Phase =
    | Counted(visit: nat)
    | Checked(visit: nat, gate: Option<Gate>)
    | Announced(visit: nat, gate: Option<Gate>)
    | Passed(visit: nat, gate: Option<Gate>)

  // A call of `pause` that holds the lock: before, then after, it has compared with the counter.
  datatype Holder = Holder(visit: nat, compared: bool)

  datatype Armed = Armed(visit: nat, gate: Gate)

  // `calls` are the calls of `checkpoint`, in the order of their counter increments. `arms` and
  // `dropped` remember which visit each gate was armed for and which guards are gone.
  datatype State = State(
    count: nat, reached: nat, armed: Option<Armed>, lock: Option<Holder>, permits: seq<nat>,
    calls: seq<Phase>, arms: seq<nat>, dropped: set<Gate>)

  datatype Event =
    | LockForPause(visit: nat)
    | CompareCount
    | Arm
    | FetchAdd
    | CheckGate(call: nat)
    | Announce(call: nat)
    | Pass(call: nat)
    | DropGuard(gate: Gate)

  const INITIAL := State(0, 0, None, None, [], [], [], {})

  // An action that is not possible leaves the state alone; so does a panic, which frees the lock.
  function Next(s: State, event: Event): State {
    match event
    case LockForPause(visit) =>
      if s.lock.None? && s.armed.None? then s.(lock := Some(Holder(visit, false))) else s
    case CompareCount =>
      if s.lock.None? || s.lock.value.compared then s
      else if s.lock.value.visit > s.count then s.(lock := Some(s.lock.value.(compared := true)))
      else s.(lock := None)
    case Arm =>
      if s.lock.None? || !s.lock.value.compared then s
      else
        s.(armed := Some(Armed(s.lock.value.visit, |s.permits|)), permits := s.permits + [0],
           arms := s.arms + [s.lock.value.visit], lock := None)
    case FetchAdd => s.(count := s.count + 1, calls := s.calls + [Counted(s.count + 1)])
    case CheckGate(call) =>
      if call >= |s.calls| || !s.calls[call].Counted? || s.lock.Some? then s
      else
        var visit := s.calls[call].visit;
        if s.armed.Some? && s.armed.value.visit == visit
        then s.(armed := None, calls := s.calls[call := Checked(visit, Some(s.armed.value.gate))])
        else s.(calls := s.calls[call := Checked(visit, None)])
    case Announce(call) =>
      if call >= |s.calls| || !s.calls[call].Checked? then s
      else
        var Checked(visit, gate) := s.calls[call];
        s.(reached := if s.reached < visit then visit else s.reached, calls := s.calls[call := Announced(visit, gate)])
    case Pass(call) =>
      if call >= |s.calls| || !s.calls[call].Announced? then s
      else
        var Announced(visit, gate) := s.calls[call];
        if gate.None? then s.(calls := s.calls[call := Passed(visit, None)])
        else if gate.value >= |s.permits| || s.permits[gate.value] == 0 then s
        else s.(permits := s.permits[gate.value := s.permits[gate.value] - 1],
                calls := s.calls[call := Passed(visit, gate)])
    case DropGuard(gate) =>
      if gate >= |s.permits| || gate in s.dropped then s
      else s.(permits := s.permits[gate := s.permits[gate] + 1], dropped := s.dropped + {gate})
  }

  function Run(s: State, events: seq<Event>): State
    decreases |events|
  {
    if events == [] then s else Run(Next(s, events[0]), events[1..])
  }

  // The call got `gate` from its critical section.
  predicate Holds(s: State, call: nat, gate: Gate) {
    call < |s.calls| && !s.calls[call].Counted? && s.calls[call].gate == Some(gate)
  }

  // Visit `visit` is through its critical section.
  predicate PastCheck(s: State, visit: nat) {
    0 < visit <= |s.calls| && !s.calls[visit - 1].Counted?
  }

  // Visits are numbered 1, 2, ... by their counter increments.
  ghost predicate CallsOk(s: State) {
    && |s.calls| == s.count
    && forall i :: 0 <= i < |s.calls| ==>
         && s.calls[i].visit == i + 1
         && (!s.calls[i].Counted? && s.calls[i].gate.Some? ==>
               s.calls[i].gate.value < |s.arms| && s.arms[s.calls[i].gate.value] == i + 1)
  }

  // Whoever may still be armed for has not been through its critical section.
  ghost predicate ArmedOk(s: State) {
    && (s.armed.Some? ==>
          && s.lock.None?
          && s.armed.value.gate < |s.arms| && s.arms[s.armed.value.gate] == s.armed.value.visit
          && !PastCheck(s, s.armed.value.visit))
    && (s.lock.Some? && s.lock.value.compared ==> s.lock.value.visit > 0 && !PastCheck(s, s.lock.value.visit))
  }

  predicate Through(s: State, gate: Gate)
    requires gate < |s.arms|
  {
    0 < s.arms[gate] <= |s.calls| && Holds(s, s.arms[gate] - 1, gate) && s.calls[s.arms[gate] - 1].Passed?
  }

  ghost predicate GateOk(s: State, gate: Gate)
    requires gate < |s.arms| == |s.permits|
  {
    && s.arms[gate] > 0
    && (s.armed == Some(Armed(s.arms[gate], gate)) || (s.arms[gate] <= |s.calls| && Holds(s, s.arms[gate] - 1, gate)))
    && s.permits[gate] + (if Through(s, gate) then 1 else 0) == (if gate in s.dropped then 1 else 0)
  }

  ghost predicate Inv(s: State) {
    && CallsOk(s)
    && ArmedOk(s)
    && |s.permits| == |s.arms|
    && (forall gate :: 0 <= gate < |s.arms| ==> GateOk(s, gate))
    && s.reached <= s.count
    && (s.reached > 0 ==> s.calls[s.reached - 1].Announced? || s.calls[s.reached - 1].Passed?)
    && (forall gate :: gate in s.dropped ==> gate < |s.arms|)
  }

  lemma CallsKept(s: State, event: Event)
    requires Inv(s)
    ensures CallsOk(Next(s, event))
  {}

  lemma ArmedKept(s: State, event: Event)
    requires Inv(s)
    ensures ArmedOk(Next(s, event))
  {}

  lemma GateKeptByCheck(s: State, call: nat, gate: Gate)
    requires Inv(s) && gate < |s.arms|
    ensures GateOk(Next(s, CheckGate(call)), gate)
  {
    assert GateOk(s, gate);
    if call < |s.calls| { assert s.calls[call].visit == call + 1; }
  }

  lemma GateKeptByAnnounce(s: State, call: nat, gate: Gate)
    requires Inv(s) && gate < |s.arms|
    ensures GateOk(Next(s, Announce(call)), gate)
  {
    assert GateOk(s, gate);
    if call < |s.calls| { assert s.calls[call].visit == call + 1; }
  }

  lemma GateKeptByPass(s: State, call: nat, gate: Gate)
    requires Inv(s) && gate < |s.arms|
    ensures GateOk(Next(s, Pass(call)), gate)
  {
    assert GateOk(s, gate);
    if call < |s.calls| { assert s.calls[call].visit == call + 1; }
  }

  lemma GateKeptByArm(s: State, gate: Gate)
    requires Inv(s) && gate < |s.arms|
    ensures GateOk(Next(s, Arm), gate)
  {
    assert GateOk(s, gate);
  }

  lemma GateKeptByDrop(s: State, dropped: Gate, gate: Gate)
    requires Inv(s) && gate < |s.arms|
    ensures GateOk(Next(s, DropGuard(dropped)), gate)
  {
    assert GateOk(s, gate);
  }

  // An armed gate changes hands only in the critical section of the visit it was armed for.
  lemma GateKept(s: State, event: Event, gate: Gate)
    requires Inv(s) && gate < |s.arms|
    ensures |s.arms| <= |Next(s, event).arms| == |Next(s, event).permits| && GateOk(Next(s, event), gate)
  {
    match event
    case CheckGate(call) => GateKeptByCheck(s, call, gate);
    case Announce(call) => GateKeptByAnnounce(s, call, gate);
    case Pass(call) => GateKeptByPass(s, call, gate);
    case Arm => GateKeptByArm(s, gate);
    case DropGuard(dropped) => GateKeptByDrop(s, dropped, gate);
    case _ => assert GateOk(s, gate);
  }

  lemma ReachedKept(s: State, event: Event)
    requires Inv(s)
    ensures s.reached <= Next(s, event).reached <= Next(s, event).count
    ensures |Next(s, event).calls| == Next(s, event).count
    ensures var t := Next(s, event);
      t.reached > 0 ==> t.calls[t.reached - 1].Announced? || t.calls[t.reached - 1].Passed?
  {}

  lemma NextKeepsInv(s: State, event: Event)
    requires Inv(s)
    ensures Inv(Next(s, event)) && Next(s, event).reached >= s.reached
  {
    CallsKept(s, event);
    ArmedKept(s, event);
    forall gate | 0 <= gate < |s.arms|
      ensures GateOk(Next(s, event), gate)
    {
      GateKept(s, event, gate);
    }
    ReachedKept(s, event);
  }

  lemma {:induction false} RunKeepsInv(s: State, events: seq<Event>)
    requires Inv(s)
    ensures Inv(Run(s, events)) && Run(s, events).reached >= s.reached
    decreases |events|
  {
    if events != [] {
      NextKeepsInv(s, events[0]);
      RunKeepsInv(Next(s, events[0]), events[1..]);
    }
  }

  // ----- Main results, over every interleaving -----

  // No lost pause: a gate armed for visit n is taken by visit n, once visit n has been through its
  // critical section, and by no other; and visit n gets past it only after the guard is dropped.
  lemma NoPauseIsLost(events: seq<Event>, gate: Gate)
    requires gate < |Run(INITIAL, events).arms|
    ensures var s := Run(INITIAL, events); var visit := s.arms[gate];
      && Inv(s)
      && (forall call: nat :: Holds(s, call, gate) ==> call == visit - 1 && s.calls[call].visit == visit)
      && (PastCheck(s, visit) ==> Holds(s, visit - 1, gate))
      && (PastCheck(s, visit) && s.calls[visit - 1].Passed? ==> gate in s.dropped)
  {
    RunKeepsInv(INITIAL, events);
    var s := Run(INITIAL, events);
    assert GateOk(s, gate) && CallsOk(s);
  }

  // And no visit is stuck: once the guard is gone, a visit waiting at its gate can pass.
  lemma DroppingReleases(events: seq<Event>, call: nat, gate: Gate)
    requires var s := Run(INITIAL, events);
      Holds(s, call, gate) && s.calls[call].Announced? && gate in s.dropped
    ensures call < |Next(Run(INITIAL, events), Pass(call)).calls|
    ensures Next(Run(INITIAL, events), Pass(call)).calls[call].Passed?
  {
    RunKeepsInv(INITIAL, events);
    assert GateOk(Run(INITIAL, events), gate);
  }

  // Visits get the numbers 1, 2, ... without gaps or repeats, and the value test code waits on never
  // falls, never runs ahead of the visits counted and names a visit that has announced itself.
  lemma VisitsAreNumbered(events: seq<Event>, more: seq<Event>)
    ensures var s := Run(INITIAL, events);
      && |s.calls| == s.count
      && (forall i :: 0 <= i < |s.calls| ==> s.calls[i].visit == i + 1)
      && s.reached <= s.count && s.reached <= Run(s, more).reached
      && (s.reached > 0 ==> s.calls[s.reached - 1].Announced? || s.calls[s.reached - 1].Passed?)
  {
    RunKeepsInv(INITIAL, events);
    RunKeepsInv(Run(INITIAL, events), more);
    NumbersOf(Run(INITIAL, events));
  }

  lemma NumbersOf(s: State)
    requires Inv(s)
    ensures |s.calls| == s.count && s.reached <= s.count
    ensures forall i :: 0 <= i < |s.calls| ==> s.calls[i].visit == i + 1
    ensures s.reached > 0 ==> s.calls[s.reached - 1].Announced? || s.calls[s.reached - 1].Passed?
  {}

  // ----- What `Pause::reached` promises -----

  // Visit `visit` has announced itself.
  predicate HasAnnounced(s: State, visit: nat) {
    0 < visit <= |s.calls| && (s.calls[visit - 1].Announced? || s.calls[visit - 1].Passed?)
  }

  // Whoever waits for visit `visit` and is let through finds it announced.
  predicate Faithful(s: State, visit: nat) {
    s.reached >= visit ==> HasAnnounced(s, visit)
  }

  // The exact failing case: a later visit announces itself while `visit` has not.
  predicate Overtakes(s: State, event: Event, visit: nat) {
    event.Announce? && event.call < |s.calls| && s.calls[event.call].Checked? && s.calls[event.call].visit > visit
    && !HasAnnounced(s, visit)
  }

  lemma FaithfulUnless(s: State, event: Event, visit: nat)
    requires Inv(s) && visit > 0 && Faithful(s, visit)
    ensures Faithful(Next(s, event), visit) <==> !Overtakes(s, event, visit)
  {
    assert CallsOk(s);
    if event.Announce? && event.call < |s.calls| {
      assert s.calls[event.call].visit == event.call + 1;
    }
  }

  predicate NoneOvertakes(s: State, events: seq<Event>, visit: nat)
    decreases |events|
  {
    events != [] ==> !Overtakes(s, events[0], visit) && NoneOvertakes(Next(s, events[0]), events[1..], visit)
  }

  // In any run no later visit overtakes `visit` exactly when, at every moment, a wait for it that is
  // let through finds it announced.
  lemma {:induction false} ReachedIsFaithfulUnlessOvertaken(s: State, events: seq<Event>, visit: nat)
    requires Inv(s) && visit > 0 && Faithful(s, visit)
    ensures NoneOvertakes(s, events, visit)
            <==> forall n :: 0 <= n <= |events| ==> Faithful(Run(s, events[..n]), visit)
    decreases |events|
  {
    if events == [] {
      assert events[..0] == [];
    } else {
      var t, rest := Next(s, events[0]), events[1..];
      NextKeepsInv(s, events[0]);
      FaithfulUnless(s, events[0], visit);
      forall n | 0 < n <= |events|
        ensures Run(s, events[..n]) == Run(t, rest[..n - 1])
      {
        assert events[..n][0] == events[0] && events[..n][1..] == rest[..n - 1];
      }
      assert events[..0] == [] && rest[..0] == [];
      assert Run(s, events[..1]) == t;
      if Faithful(t, visit) {
        ReachedIsFaithfulUnlessOvertaken(t, rest, visit);
        FaithfulShift(s, events, visit);
      }
    }
  }

  // Being faithful along a run is being so now and along what is left of it.
  lemma FaithfulShift(s: State, events: seq<Event>, visit: nat)
    requires events != [] && Faithful(s, visit)
    requires forall n :: 0 < n <= |events| ==> Run(s, events[..n]) == Run(Next(s, events[0]), events[1..][..n - 1])
    ensures (forall n :: 0 <= n <= |events| ==> Faithful(Run(s, events[..n]), visit))
            <==> forall n :: 0 <= n <= |events[1..]| ==> Faithful(Run(Next(s, events[0]), events[1..][..n]), visit)
  {
    var t, rest := Next(s, events[0]), events[1..];
    assert events[..0] == [];
    if forall n :: 0 <= n <= |events| ==> Faithful(Run(s, events[..n]), visit) {
      forall n | 0 <= n <= |rest|
        ensures Faithful(Run(t, rest[..n]), visit)
      {
        assert Run(s, events[..n + 1]) == Run(t, rest[..n + 1 - 1]);
      }
    }
    if forall n :: 0 <= n <= |rest| ==> Faithful(Run(t, rest[..n]), visit) {
      forall n | 0 <= n <= |events|
        ensures Faithful(Run(s, events[..n]), visit)
      {
        if n > 0 { assert Run(s, events[..n]) == Run(t, rest[..n - 1]); }
      }
    }
  }

  // And it can be overtaken: visit 2 can announce itself while visit 1, for which the pause was
  // armed, has not come to its gate.
  lemma ReachedCanOvertake()
    ensures exists events ::
      var s := Run(INITIAL, events);
      s.reached == 2 && s.armed == Some(Armed(1, 0)) && |s.calls| == 2 && s.calls[0] == Counted(1)
  {
    var e3 := [CheckGate(1), Announce(1)];
    var e2 := [FetchAdd, FetchAdd] + e3;
    var e1 := [LockForPause(1), CompareCount, Arm] + e2;
    var s1 := Next(Next(Next(INITIAL, LockForPause(1)), CompareCount), Arm);
    var s2 := Next(Next(s1, FetchAdd), FetchAdd);
    assert e1[1..][1..][1..] == e2 && e2[1..][1..] == e3 && e3[1..][1..] == [];
    assert Run(s2, e3) == Next(Next(s2, CheckGate(1)), Announce(1));
    assert Run(s1, e2) == Run(Next(s1, FetchAdd), e2[1..]) == Run(s2, e3);
    assert Run(INITIAL, e1) == Run(Next(INITIAL, LockForPause(1)), e1[1..])
        == Run(Next(Next(INITIAL, LockForPause(1)), CompareCount), e1[1..][1..]) == Run(s1, e2);
  }

  // ----- The point itself, whose cells the actions update in place -----

  class Point {
    var count: nat
    var reached: nat
    var armed: Option<Armed>
    var lock: Option<Holder>
    var permits: seq<nat>
    var calls: seq<Phase>
    ghost var arms: seq<nat>
    ghost var dropped: set<Gate>

    ghost function View(): State
      reads this
    {
      State(count, reached, armed, lock, permits, calls, arms, dropped)
    }

    constructor ()
      ensures View() == INITIAL
    {
      count, reached, armed, lock, permits, calls, arms, dropped := 0, 0, None, None, [], [], [], {};
    }

    // One uninterrupted call of `pause`: it panics, with the point as it was, or arms a new gate.
    // Its three actions are what other calls can come between.
    method Pause(visit: nat) returns (gate: Option<Gate>)
      requires lock.None?
      modifies this
      ensures View() == Next(Next(Next(old(View()), LockForPause(visit)), CompareCount), Arm)
      ensures gate.Some? <==> old(armed).None? && visit > old(count)
      ensures gate.Some? ==> armed == Some(Armed(visit, gate.value)) && gate.value == |old(permits)|
      ensures gate.None? ==> View() == old(View())
    {
      gate := None;
      ghost var locked := Next(View(), LockForPause(visit));
      if armed.Some? { return; }
      lock := Some(Holder(visit, false));
      if visit <= count {
        lock := None;
        assert Next(locked, CompareCount) == View();
        return;
      }
      lock := Some(Holder(visit, true));
      assert Next(locked, CompareCount) == View();
      gate := Some(|permits|);
      armed, lock := Some(Armed(visit, |permits|)), None;
      arms, permits := arms + [visit], permits + [0];
    }

    method Count() returns (call: nat)
      modifies this
      ensures View() == Next(old(View()), FetchAdd) && call == |old(calls)|
    {
      call := |calls|;
      count := count + 1;
      calls := calls + [Counted(count)];
    }

    method TakeGate(call: nat)
      requires call < |calls| && calls[call].Counted? && lock.None?
      modifies this
      ensures View() == Next(old(View()), CheckGate(call)) && calls[call].Checked?
    {
      var visit := calls[call].visit;
      if armed.Some? && armed.value.visit == visit {
        calls := calls[call := Checked(visit, Some(armed.value.gate))];
        armed := None;
      } else {
        calls := calls[call := Checked(visit, None)];
      }
    }

    method SendReached(call: nat)
      requires call < |calls| && calls[call].Checked?
      modifies this
      ensures View() == Next(old(View()), Announce(call)) && calls[call].Announced?
    {
      var Checked(visit, gate) := calls[call];
      if reached < visit {
        reached := visit;
      }
      calls := calls[call := Announced(visit, gate)];
    }

    // Without a permit the call keeps waiting.
    method Acquire(call: nat)
      requires call < |calls| && calls[call].Announced?
      modifies this
      ensures View() == Next(old(View()), Pass(call))
    {
      var Announced(visit, gate) := calls[call];
      if gate.None? {
        calls := calls[call := Passed(visit, gate)];
      } else if gate.value < |permits| && permits[gate.value] > 0 {
        permits := permits[gate.value := permits[gate.value] - 1];
        calls := calls[call := Passed(visit, gate)];
      }
    }

    method Drop(gate: Gate)
      requires gate < |permits| && gate !in dropped
      modifies this
      ensures View() == Next(old(View()), DropGuard(gate))
    {
      permits := permits[gate := permits[gate] + 1];
      dropped := dropped + {gate};
    }
  }
}
