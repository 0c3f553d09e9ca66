// The coalescing refresher of web/src/RuntimeSessionSubscriber.tsx. Its refs outlive the effects that
// share them: an effect torn down while its refresh is in flight still runs that refresh's tail.
//
// `State` and `Next` say what each callback does; class `Component` is the component's refs, updated
// in place.
module Subscriber {
  import opened Options

  type Effect = nat

  // `timer` is the effect whose closure the armed timer runs, `live` the effect not yet disposed, and
  // `inFlight` the effects whose refresh has not ended. `updates`, `covered` and `starts` record the
  // update events, how many of them the last refresh started after, and the refreshes started.
  datatype State = State(
    pending: bool, refreshing: bool, timer: Option<Effect>, live: Option<Effect>, effects: nat,
    inFlight: seq<Effect>, updates: nat, covered: nat, starts: nat)

  datatype Event =
    | Setup
    | Cleanup
    | UpdateArrives
    | TimerFires(threadRunning: bool)
    | RefreshEnds(k: nat)

  const INITIAL := State(false, false, None, None, 0, [], 0, 0, 0)

  // scheduleRefresh as effect `e` closes over it.
  function Schedule(s: State, e: Effect): State {
    s.(pending := true, timer := if s.timer.Some? then s.timer else Some(e))
  }

  function Start(s: State, e: Effect): State {
    s.(pending := false, refreshing := true, inFlight := s.inFlight + [e], covered := s.updates, starts := s.starts + 1)
  }

  // An event that cannot happen leaves the state alone.
  function Next(s: State, event: Event): State {
    match event
    case Setup =>
      if s.live.Some? then s
      else Schedule(s.(live := Some(s.effects), effects := s.effects + 1, updates := s.updates + 1), s.effects)
    case Cleanup => if s.live.None? then s else s.(live := None, timer := None)
    case UpdateArrives =>
      if s.live.None? then s else Schedule(s.(updates := s.updates + 1), s.live.value)
    case TimerFires(threadRunning) =>
      if s.timer.None? then s
      else
        var fired := s.(timer := None);
        if s.live != s.timer || !s.pending then fired
        else if s.refreshing || threadRunning then Schedule(fired, s.timer.value)
        else Start(fired, s.timer.value)
    case RefreshEnds(k) =>
      if k >= |s.inFlight| then s
      else
        var ended := s.(refreshing := false, inFlight := s.inFlight[..k] + s.inFlight[k + 1..]);
        if s.pending then Schedule(ended, s.inFlight[k]) else ended
  }

  function Run(s: State, events: seq<Event>): State
    decreases |events|
  {
    if events == [] then s else Run(Next(s, events[0]), events[1..])
  }

  // A timer of a disposed effect, which will do nothing when it fires.
  predicate Stale(s: State) {
    s.timer.Some? && s.timer != s.live
  }

  ghost predicate Inv(s: State) {
    && |s.inFlight| == (if s.refreshing then 1 else 0)
    && (s.live.Some? ==> s.live.value < s.effects)
    && (s.timer.Some? ==> s.timer.value < s.effects)
    && (forall k :: 0 <= k < |s.inFlight| ==> s.inFlight[k] < s.effects)
    && s.covered <= s.updates
    && (s.covered < s.updates ==> s.pending)
    && (Stale(s) ==> !s.refreshing && s.pending)
  }

  lemma NextKeepsInv(s: State, event: Event)
    requires Inv(s)
    ensures Inv(Next(s, event))
  {}

  lemma {:induction false} RunKeepsInv(s: State, events: seq<Event>)
    requires Inv(s)
    ensures Inv(Run(s, events))
    decreases |events|
  {
    if events != [] {
      NextKeepsInv(s, events[0]);
      RunKeepsInv(Next(s, events[0]), events[1..]);
    }
  }

  // ----- No lost wake-up, and when there is one -----

  // While the component is live, the only timer is its own, and pending work has it armed.
  predicate Awake(s: State) {
    s.live.Some? ==> !Stale(s) && (s.pending ==> s.timer == s.live)
  }

  // The exact failing case: an effect sets up while a disposed effect's timer is armed.
  predicate SetupUnderStaleTimer(s: State, event: Event) {
    event.Setup? && s.live.None? && s.timer.Some?
  }

  lemma AwakeUnless(s: State, event: Event)
    requires Inv(s) && Awake(s)
    ensures Awake(Next(s, event)) <==> !SetupUnderStaleTimer(s, event)
  {}

  predicate NoSetupUnderStaleTimer(s: State, events: seq<Event>)
    decreases |events|
  {
    events != [] ==>
      !SetupUnderStaleTimer(s, events[0]) && NoSetupUnderStaleTimer(Next(s, events[0]), events[1..])
  }

  lemma {:induction false} RunStaysAwake(s: State, events: seq<Event>)
    requires Inv(s) && Awake(s) && NoSetupUnderStaleTimer(s, events)
    ensures Inv(Run(s, events)) && Awake(Run(s, events))
    decreases |events|
  {
    if events != [] {
      NextKeepsInv(s, events[0]);
      AwakeUnless(s, events[0]);
      RunStaysAwake(Next(s, events[0]), events[1..]);
    }
  }

  // Let the refresh in flight end, if there is one, and the timer fire on an idle thread.
  function Settle(s: State): State {
    Next(if s.inFlight != [] then Next(s, RefreshEnds(0)) else s, TimerFires(false))
  }

  // Every update is followed by a refresh that starts after it: at any time while live, uncovered
  // updates have a timer armed that covers them all as soon as it fires on an idle thread.
  lemma NoUpdateIsLost(events: seq<Event>)
    requires NoSetupUnderStaleTimer(INITIAL, events)
    ensures var s := Run(INITIAL, events);
      s.live.Some? && s.covered < s.updates ==>
        && s.timer == s.live
        && Settle(s).covered == s.updates && Settle(s).starts == s.starts + 1 && Settle(s).refreshing
  {
    RunStaysAwake(INITIAL, events);
  }

  lemma OneRefreshAtATime(events: seq<Event>)
    ensures var s := Run(INITIAL, events); |s.inFlight| <= 1 && (s.covered < s.updates ==> s.pending)
  {
    RunKeepsInv(INITIAL, events);
  }

  // A refresh starts exactly when the live effect's timer fires with work pending, no refresh in flight
  // and the thread idle; it then serves every update so far. A timer that fires while a refresh or the
  // thread is running keeps the work and is armed again.
  lemma StartsOnlyWhenIdle(s: State, event: Event)
    requires Inv(s)
    ensures var t := Next(s, event); var due := s.timer.Some? && s.timer == s.live && s.pending;
      && (t.starts == s.starts + 1 || t.starts == s.starts)
      && (t.starts > s.starts <==> due && event == TimerFires(false) && s.inFlight == [])
      && (t.starts > s.starts ==>
            t.covered == t.updates == s.updates && !t.pending && t.inFlight == [s.live.value] && t.timer.None?)
      && (due && event.TimerFires? && (event.threadRunning || s.inFlight != []) ==> t == s)
  {
    assert s.refreshing <==> s.inFlight != [];
  }

  predicate Passive(event: Event) {
    event.TimerFires? || event.RefreshEnds?
  }

  // In the failing case the new effect's refresh never starts by itself: whatever timers fire and
  // refreshes end, no refresh starts and the update stays uncovered.
  lemma {:induction false} NothingWakesIt(s: State, events: seq<Event>)
    requires s.live.Some? && s.pending && s.timer != s.live && s.inFlight == []
    requires forall i :: 0 <= i < |events| ==> Passive(events[i])
    ensures Run(s, events).starts == s.starts && Run(s, events).covered == s.covered
    ensures Run(s, events).live == s.live && Run(s, events).pending
    decreases |events|
  {
    if events != [] {
      NothingWakesIt(Next(s, events[0]), events[1..]);
    }
  }

  lemma SetupUnderStaleTimerIsLost(s: State, later: seq<Event>)
    requires Inv(s) && SetupUnderStaleTimer(s, Setup)
    requires forall i :: 0 <= i < |later| ==> Passive(later[i])
    ensures var t := Run(Next(s, Setup), later);
      t.live.Some? && t.pending && t.starts == s.starts && t.covered < t.updates
  {
    NextKeepsInv(s, Setup);
    NothingWakesIt(Next(s, Setup), later);
    RunKeepsInv(Next(s, Setup), later);
    UpdatesOnlyGrow(Next(s, Setup), later);
  }

  lemma {:induction false} UpdatesOnlyGrow(s: State, events: seq<Event>)
    ensures Run(s, events).updates >= s.updates
    decreases |events|
  {
    if events != [] {
      UpdatesOnlyGrow(Next(s, events[0]), events[1..]);
    }
  }

  lemma {:induction false} RunConcat(s: State, first: seq<Event>, second: seq<Event>)
    ensures Run(s, first + second) == Run(Run(s, first), second)
    decreases |first|
  {
    if first == [] {
      assert first + second == second;
    } else {
      assert (first + second)[1..] == first[1..] + second;
      RunConcat(Next(s, first[0]), first[1..], second);
    }
  }

  // The failing case happens: an update arrives during a refresh, the effect is torn down, the
  // refresh ends and re-arms the disposed effect's timer, and only then does the next effect set up.
  lemma LostWakeUpIsReachable()
    ensures exists events ::
      var s := Run(INITIAL, events); SetupUnderStaleTimer(s, Setup)
  {
    var first := [Setup, TimerFires(false), UpdateArrives];
    var second := [Cleanup, RefreshEnds(0)];
    var a := Next(Next(Next(INITIAL, Setup), TimerFires(false)), UpdateArrives);
    assert first[1..][1..][1..] == [] && second[1..][1..] == [];
    assert Run(INITIAL, first) == Run(Next(INITIAL, Setup), first[1..])
        == Run(Next(Next(INITIAL, Setup), TimerFires(false)), first[1..][1..]) == a;
    assert Run(a, second) == Run(Next(a, Cleanup), second[1..]) == Next(Next(a, Cleanup), RefreshEnds(0));
    RunConcat(INITIAL, first, second);
    assert SetupUnderStaleTimer(Run(INITIAL, first + second), Setup);
  }

  // ----- The component's refs -----

  class Component {
    var pending: bool
    var refreshing: bool
    var timer: Option<Effect>
    var live: Option<Effect>
    var effects: nat
    var inFlight: seq<Effect>
    ghost var updates: nat
    ghost var covered: nat
    ghost var starts: nat

    ghost function View(): State
      reads this
    {
      State(pending, refreshing, timer, live, effects, inFlight, updates, covered, starts)
    }

    constructor ()
      ensures View() == INITIAL
    {
      pending, refreshing, timer, live, effects, inFlight := false, false, None, None, 0, [];
      updates, covered, starts := 0, 0, 0;
    }

    method ScheduleRefresh(e: Effect)
      modifies `pending, `timer
      ensures View() == Schedule(old(View()), e)
    {
      pending := true;
      if timer.Some? { return; }
      timer := Some(e);
    }

    method SetUp()
      requires live.None?
      modifies this
      ensures View() == Next(old(View()), Setup)
    {
      live, effects, updates := Some(effects), effects + 1, updates + 1;
      ScheduleRefresh(live.value);
    }

    method CleanUp()
      requires live.Some?
      modifies this
      ensures View() == Next(old(View()), Cleanup)
    {
      live := None;
      if timer.Some? {
        timer := None;
      }
    }

    method SessionUpdated()
      requires live.Some?
      modifies this
      ensures View() == Next(old(View()), UpdateArrives)
    {
      updates := updates + 1;
      ScheduleRefresh(live.value);
    }

    // The timer callback, up to its first await.
    method Fire(threadRunning: bool)
      requires timer.Some?
      modifies this
      ensures View() == Next(old(View()), TimerFires(threadRunning))
    {
      var e := timer.value;
      timer := None;
      if live != Some(e) || !pending { return; }
      if refreshing || threadRunning {
        ScheduleRefresh(e);
        return;
      }
      pending, refreshing, inFlight := false, true, inFlight + [e];
      covered, starts := updates, starts + 1;
    }

    // The callback's tail, whether or not the refresh threw.
    method Finish(k: nat)
      requires k < |inFlight|
      modifies this
      ensures View() == Next(old(View()), RefreshEnds(k))
    {
      var e := inFlight[k];
      inFlight := inFlight[..k] + inFlight[k + 1..];
      refreshing := false;
      if pending {
        ScheduleRefresh(e);
      }
    }
  }
}
