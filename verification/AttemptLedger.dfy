// Attributing wire events to requests (scripts/probe_reasoning_summaries.py): which request an event
// belongs to, and when a probe counts as accepted.
//
// A trace entry carries what the script reads from it: `declared` and `toolResult` for a request
// body; provider (gemini already named vertexai), model and response id for an event.
module AttemptLedger {
  datatype Identity = Identity(protocol: string, model: string, host: string, path: string)

  datatype Event = Event(
    provider: string, model: string, responseId: string, isResponse: bool, finishes: bool, trailingUsage: bool)

  datatype Entry = Request(declared: bool, toolResult: bool, identity: Identity) | Wire(event: Event) | Other

  datatype Attempt = Attempt(request: Entry, events: seq<Event>, relevant: bool, identity: Identity, closed: bool)

  type ResponseKey = (string, string)

  datatype State = State(attempts: seq<Attempt>, bound: map<ResponseKey, nat>, unassigned: nat)

  const INITIAL := State([], map[], 0)

  predicate Completed(event: Event) {
    !event.isResponse && event.finishes
  }

  predicate Matches(attempt: Attempt, event: Event) {
    && (attempt.identity.protocol == "" || attempt.identity.protocol == event.provider)
    && (event.model == "" || attempt.identity.model == "" || event.model == attempt.identity.model
        || attempt.identity.model + "-" <= event.model)
  }

  // The model an event names is the requested one or a dated version of it.
  predicate IsVersionOf(version: string, model: string) {
    version == model || (|model| < |version| && version[..|model|] == model && version[|model|] == '-')
  }

  // An attempt and an event fit unless both say which protocol, or which model, and differ.
  lemma MatchesExactly(attempt: Attempt, event: Event)
    ensures Matches(attempt, event) <==>
              && attempt.identity.protocol in {"", event.provider}
              && (attempt.identity.model == "" || event.model == "" || IsVersionOf(event.model, attempt.identity.model))
  {
    var model := attempt.identity.model;
    if model + "-" <= event.model {
      assert event.model[..|model|] == model && event.model[|model|] == '-';
    }
    if IsVersionOf(event.model, model) && event.model != model {
      assert event.model[..|model| + 1] == model + "-";
    }
  }

  predicate OpenMatch(attempt: Attempt, event: Event) {
    Matches(attempt, event) && !attempt.closed
  }

  // ----- The ledger's two operations -----

  function ClosePrevious(attempts: seq<Attempt>, identity: Identity): (after: seq<Attempt>)
    ensures |after| == |attempts|
    ensures forall i :: 0 <= i < |attempts| ==>
              after[i] == if attempts[i].relevant && attempts[i].identity == identity
                          then attempts[i].(closed := true) else attempts[i]
  {
    seq(|attempts|, i requires 0 <= i < |attempts| =>
      if attempts[i].relevant && attempts[i].identity == identity then attempts[i].(closed := true) else attempts[i])
  }

  function AddRequest(s: State, entry: Entry): State
    requires entry.Request?
  {
    var relevant := entry.declared || entry.toolResult;
    var before := if relevant then ClosePrevious(s.attempts, entry.identity) else s.attempts;
    s.(attempts := before + [Attempt(entry, [], relevant, entry.identity, false)])
  }

  // The first n attempts that match, by position.
  function Matching(attempts: seq<Attempt>, event: Event, n: nat): seq<nat>
    requires n <= |attempts|
  {
    if n == 0 then []
    else Matching(attempts, event, n - 1) + if Matches(attempts[n - 1], event) then [n - 1] else []
  }

  function Active(attempts: seq<Attempt>, event: Event, n: nat): seq<nat>
    requires n <= |attempts|
  {
    if n == 0 then []
    else Active(attempts, event, n - 1) + if OpenMatch(attempts[n - 1], event) then [n - 1] else []
  }

  function Candidates(s: State, event: Event): seq<nat> {
    var key := (event.provider, event.responseId);
    if key in s.bound then [s.bound[key]]
    else
      var active := Active(s.attempts, event, |s.attempts|);
      var matching := Matching(s.attempts, event, |s.attempts|);
      if active != [] then active
      else if event.trailingUsage && matching != [] then [matching[|matching| - 1]]
      else []
  }

  // Hand the event to one attempt.
  function Assigned(s: State, event: Event, i: nat): State
    requires i < |s.attempts|
  {
    var attempt := s.attempts[i].(
      events := s.attempts[i].events + [event],
      closed := s.attempts[i].closed || Completed(event) || event.isResponse);
    State(s.attempts[i := attempt],
          if event.responseId != "" then s.bound[(event.provider, event.responseId) := i] else s.bound,
          s.unassigned)
  }

  function AddEvent(s: State, event: Event): State {
    var candidates := Candidates(s, event);
    if |candidates| == 1 && candidates[0] < |s.attempts| then Assigned(s, event, candidates[0])
    else s.(unassigned := s.unassigned + 1)
  }

  function Step(s: State, entry: Entry): State {
    match entry
    case Request(_, _, _) => AddRequest(s, entry)
    case Wire(event) => AddEvent(s, event)
    case Other => s
  }

  // attribute_events over the first n entries of a trace.
  function Attribute(trace: seq<Entry>, n: nat): State
    requires n <= |trace|
  {
    if n == 0 then INITIAL else Step(Attribute(trace, n - 1), trace[n - 1])
  }

  // ----- Who gets an event -----

  lemma {:induction false} ActiveSpec(attempts: seq<Attempt>, event: Event, n: nat)
    requires n <= |attempts|
    ensures forall i :: i in Active(attempts, event, n) <==> 0 <= i < n && OpenMatch(attempts[i], event)
    ensures forall j, k :: 0 <= j < k < |Active(attempts, event, n)| ==>
              Active(attempts, event, n)[j] < Active(attempts, event, n)[k]
  {
    if n > 0 {
      ActiveSpec(attempts, event, n - 1);
      var last := if OpenMatch(attempts[n - 1], event) then [n - 1] else [];
      var before := Active(attempts, event, n - 1);
      forall j, k | 0 <= j < k < |before + last|
        ensures (before + last)[j] < (before + last)[k]
      {
        assert before[j] in before;
      }
    }
  }

  lemma {:induction false} LastMatching(attempts: seq<Attempt>, event: Event, n: nat)
    requires n <= |attempts|
    ensures var m := Matching(attempts, event, n);
      && (m == [] <==> forall i :: 0 <= i < n ==> !Matches(attempts[i], event))
      && (m != [] ==> m[|m| - 1] < n && Matches(attempts[m[|m| - 1]], event)
                      && forall i :: m[|m| - 1] < i < n ==> !Matches(attempts[i], event))
  {
    if n > 0 {
      LastMatching(attempts, event, n - 1);
    }
  }

  ghost predicate AnyOpen(attempts: seq<Attempt>, event: Event) {
    exists j :: 0 <= j < |attempts| && OpenMatch(attempts[j], event)
  }

  ghost predicate OnlyOpen(attempts: seq<Attempt>, event: Event, i: nat)
    requires i < |attempts|
  {
    OpenMatch(attempts[i], event) && forall j :: 0 <= j < |attempts| && OpenMatch(attempts[j], event) ==> j == i
  }

  ghost predicate LastMatch(attempts: seq<Attempt>, event: Event, i: nat)
    requires i < |attempts|
  {
    Matches(attempts[i], event) && forall j :: i < j < |attempts| ==> !Matches(attempts[j], event)
  }

  // Attempt i is the one the event belongs to: the one its response id is bound to; failing that the
  // only open attempt that matches; failing any such, for trailing usage, the latest that matches.
  ghost predicate BelongsTo(s: State, event: Event, i: nat)
    requires i < |s.attempts|
  {
    var key := (event.provider, event.responseId);
    if key in s.bound then s.bound[key] == i
    else if AnyOpen(s.attempts, event) then OnlyOpen(s.attempts, event, i)
    else event.trailingUsage && LastMatch(s.attempts, event, i)
  }

  // An event is attributed exactly when it belongs to one attempt, and then to that one.
  lemma AttributedToItsAttempt(s: State, event: Event)
    requires forall key :: key in s.bound ==> s.bound[key] < |s.attempts|
    ensures forall i :: 0 <= i < |s.attempts| ==>
              (BelongsTo(s, event, i) <==> Candidates(s, event) == [i])
    ensures (forall i :: 0 <= i < |s.attempts| ==> !BelongsTo(s, event, i)) ==>
              AddEvent(s, event) == s.(unassigned := s.unassigned + 1)
    ensures forall i :: 0 <= i < |s.attempts| && BelongsTo(s, event, i) ==> AddEvent(s, event) == Assigned(s, event, i)
  {
    CandidatesAreAttempts(s, event);
    forall i | 0 <= i < |s.attempts|
      ensures BelongsTo(s, event, i) <==> Candidates(s, event) == [i]
    {
      BelongsMeansCandidate(s, event, i);
    }
    var candidates := Candidates(s, event);
    if |candidates| == 1 {
      assert candidates == [candidates[0]];
    }
  }

  lemma CandidatesAreAttempts(s: State, event: Event)
    requires forall key :: key in s.bound ==> s.bound[key] < |s.attempts|
    ensures forall i :: i in Candidates(s, event) ==> i < |s.attempts|
  {
    ActiveSpec(s.attempts, event, |s.attempts|);
    LastMatching(s.attempts, event, |s.attempts|);
  }

  lemma OnlyOne(list: seq<nat>, i: nat)
    requires forall j, k :: 0 <= j < k < |list| ==> list[j] < list[k]
    ensures list == [i] <==> i in list && forall j :: j in list ==> j == i
  {
    assert |list| > 0 ==> list[0] in list;
    assert |list| > 1 ==> list[1] in list;
  }

  lemma ActiveMeansOpen(attempts: seq<Attempt>, event: Event, i: nat)
    requires i < |attempts|
    ensures Active(attempts, event, |attempts|) != [] <==> AnyOpen(attempts, event)
    ensures Active(attempts, event, |attempts|) == [i] <==> OnlyOpen(attempts, event, i)
  {
    var active := Active(attempts, event, |attempts|);
    ActiveSpec(attempts, event, |attempts|);
    AnyOpenInList(attempts, event, active);
    OnlyOne(active, i);
    OnlyOpenInList(attempts, event, active, i);
  }

  lemma AnyOpenInList(attempts: seq<Attempt>, event: Event, active: seq<nat>)
    requires forall i :: i in active <==> 0 <= i < |attempts| && OpenMatch(attempts[i], event)
    ensures active != [] <==> AnyOpen(attempts, event)
  {
    assert active != [] ==> active[0] in active;
    if AnyOpen(attempts, event) {
      var j :| 0 <= j < |attempts| && OpenMatch(attempts[j], event);
      assert j in active;
    }
  }

  lemma OnlyOpenInList(attempts: seq<Attempt>, event: Event, active: seq<nat>, i: nat)
    requires i < |attempts|
    requires forall i :: i in active <==> 0 <= i < |attempts| && OpenMatch(attempts[i], event)
    ensures (i in active && forall j :: j in active ==> j == i) <==> OnlyOpen(attempts, event, i)
  {}

  lemma TrailingMeansLast(attempts: seq<Attempt>, event: Event, i: nat)
    requires i < |attempts|
    ensures var m := Matching(attempts, event, |attempts|);
      m != [] && [m[|m| - 1]] == [i] <==> LastMatch(attempts, event, i)
  {
    LastMatching(attempts, event, |attempts|);
    var m := Matching(attempts, event, |attempts|);
    if m != [] {
      assert [m[|m| - 1]] == [i] <==> m[|m| - 1] == i;
    }
  }

  lemma BelongsMeansCandidate(s: State, event: Event, i: nat)
    requires i < |s.attempts|
    ensures BelongsTo(s, event, i) <==> Candidates(s, event) == [i]
  {
    var key := (event.provider, event.responseId);
    if key in s.bound {
      assert [s.bound[key]] == [i] <==> s.bound[key] == i;
    } else {
      ActiveMeansOpen(s.attempts, event, i);
      TrailingMeansLast(s.attempts, event, i);
    }
  }

  // ----- What every trace keeps -----

  function EventCount(attempts: seq<Attempt>): nat {
    if attempts == [] then 0 else EventCount(attempts[..|attempts| - 1]) + |attempts[|attempts| - 1].events|
  }

  function Attributed(attempts: seq<Attempt>): multiset<Event> {
    if attempts == [] then multiset{}
    else Attributed(attempts[..|attempts| - 1]) + multiset(attempts[|attempts| - 1].events)
  }

  function WireEvents(trace: seq<Entry>, n: nat): multiset<Event>
    requires n <= |trace|
  {
    if n == 0 then multiset{}
    else WireEvents(trace, n - 1) + if trace[n - 1].Wire? then multiset{trace[n - 1].event} else multiset{}
  }

  ghost predicate BoundOk(s: State) {
    && (forall key :: key in s.bound ==> s.bound[key] < |s.attempts|)
    && (forall i, e :: 0 <= i < |s.attempts| && e in s.attempts[i].events && e.responseId != "" ==>
          (e.provider, e.responseId) in s.bound && s.bound[(e.provider, e.responseId)] == i)
    && (forall key :: key in s.bound ==>
          var p := s.attempts[s.bound[key]].identity.protocol; p == "" || p == key.0)
    && (forall key :: key in s.bound ==> key.1 != "")
  }

  // Attributed events speak the attempt's protocol, and without a response id its model too.
  ghost predicate Sound(attempt: Attempt) {
    forall e :: e in attempt.events ==>
      && (attempt.identity.protocol == "" || attempt.identity.protocol == e.provider)
      && (e.responseId == "" ==>
            attempt.identity.model == "" || e.model == "" || IsVersionOf(e.model, attempt.identity.model))
  }

  predicate SameProbe(a: Attempt, b: Attempt) {
    a.relevant && b.relevant && a.identity == b.identity
  }

  predicate SameResponse(e: Event, f: Event) {
    e.provider == f.provider && e.responseId == f.responseId != ""
  }

  // The probe rounds of one request identity are sequential.
  ghost predicate OneOpen(attempts: seq<Attempt>) {
    forall i, j :: 0 <= i < j < |attempts| && SameProbe(attempts[i], attempts[j]) ==> attempts[i].closed
  }

  ghost predicate RecordsOk(attempt: Attempt) {
    && attempt.request.Request? && attempt.identity == attempt.request.identity
    && attempt.relevant == (attempt.request.declared || attempt.request.toolResult)
  }

  ghost predicate Inv(s: State) {
    && BoundOk(s)
    && OneOpen(s.attempts)
    && (forall i :: 0 <= i < |s.attempts| ==> Sound(s.attempts[i]) && RecordsOk(s.attempts[i]))
  }

  lemma RequestKeepsInv(s: State, entry: Entry)
    requires Inv(s) && entry.Request?
    ensures Inv(AddRequest(s, entry))
  {
    var t := AddRequest(s, entry);
    forall i | 0 <= i < |s.attempts|
      ensures t.attempts[i] == s.attempts[i].(closed := t.attempts[i].closed)
    {}
  }

  lemma EventKeepsInv(s: State, event: Event)
    requires Inv(s)
    ensures Inv(AddEvent(s, event))
  {
    CandidatesAreAttempts(s, event);
    var candidates := Candidates(s, event);
    if |candidates| == 1 {
      var i := candidates[0];
      assert i in candidates && candidates == [i];
      BelongsMeansCandidate(s, event, i);
      AssignedKeepsInv(s, event, i);
    }
  }

  lemma AssignedIsSound(s: State, event: Event, i: nat)
    requires Inv(s) && i < |s.attempts| && BelongsTo(s, event, i)
    ensures Sound(Assigned(s, event, i).attempts[i]) && RecordsOk(Assigned(s, event, i).attempts[i])
  {
    var t := Assigned(s, event, i);
    assert Sound(s.attempts[i]) && RecordsOk(s.attempts[i]);
    forall e | e in t.attempts[i].events
      ensures e in s.attempts[i].events || e == event
    {}
  }

  lemma AssignedKeepsBound(s: State, event: Event, i: nat)
    requires Inv(s) && i < |s.attempts| && BelongsTo(s, event, i)
    ensures BoundOk(Assigned(s, event, i))
  {
    var t := Assigned(s, event, i);
    forall e | e in t.attempts[i].events
      ensures e in s.attempts[i].events || e == event
    {}
  }

  lemma AssignedKeepsInv(s: State, event: Event, i: nat)
    requires Inv(s) && i < |s.attempts| && BelongsTo(s, event, i)
    ensures Inv(Assigned(s, event, i))
  {
    AssignedIsSound(s, event, i);
    AssignedKeepsBound(s, event, i);
  }

  lemma {:induction false} AttributeKeepsInv(trace: seq<Entry>, n: nat)
    requires n <= |trace|
    ensures Inv(Attribute(trace, n))
  {
    if n > 0 {
      AttributeKeepsInv(trace, n - 1);
      var s := Attribute(trace, n - 1);
      match trace[n - 1]
      case Request(_, _, _) => RequestKeepsInv(s, trace[n - 1]);
      case Wire(event) => EventKeepsInv(s, event);
      case Other =>
    }
  }

  // ----- Main results -----

  // All events of one response are in one attempt, which speaks their protocol; and the attempts
  // open for one request identity are at most one.
  lemma AttributionIsSound(trace: seq<Entry>)
    ensures var attempts := Attribute(trace, |trace|).attempts;
      && OneOpen(attempts)
      && (forall i :: 0 <= i < |attempts| ==> Sound(attempts[i]))
      && (forall i, j :: 0 <= i < |attempts| && 0 <= j < |attempts| ==>
            forall e, f :: e in attempts[i].events && f in attempts[j].events && SameResponse(e, f) ==> i == j)
  {
    AttributeKeepsInv(trace, |trace|);
  }

  lemma {:induction false} AttributedUpdate(attempts: seq<Attempt>, i: nat, attempt: Attempt, event: Event)
    requires i < |attempts| && attempt.events == attempts[i].events + [event]
    ensures Attributed(attempts[i := attempt]) == Attributed(attempts) + multiset{event}
    ensures EventCount(attempts[i := attempt]) == EventCount(attempts) + 1
  {
    var n := |attempts| - 1;
    var after := attempts[i := attempt];
    if i == n {
      assert after[..n] == attempts[..n];
    } else {
      assert after[..n] == attempts[..n][i := attempt];
      AttributedUpdate(attempts[..n], i, attempt, event);
    }
  }

  lemma {:induction false} AttributedSame(a: seq<Attempt>, b: seq<Attempt>)
    requires |a| == |b| && forall i :: 0 <= i < |a| ==> a[i].events == b[i].events
    ensures Attributed(a) == Attributed(b) && EventCount(a) == EventCount(b)
    decreases |a|
  {
    if a != [] {
      AttributedSame(a[..|a| - 1], b[..|b| - 1]);
    }
  }

  lemma RequestConserves(s: State, entry: Entry)
    requires entry.Request?
    ensures var t := AddRequest(s, entry);
      && Attributed(t.attempts) == Attributed(s.attempts)
      && EventCount(t.attempts) == EventCount(s.attempts) && t.unassigned == s.unassigned
  {
    var t := AddRequest(s, entry);
    var before := t.attempts[..|s.attempts|];
    assert t.attempts[..|t.attempts| - 1] == before;
    AttributedSame(before, s.attempts);
  }

  lemma EventConserves(s: State, event: Event)
    ensures var t := AddEvent(s, event);
      || (Attributed(t.attempts) == Attributed(s.attempts) + multiset{event}
          && EventCount(t.attempts) == EventCount(s.attempts) + 1 && t.unassigned == s.unassigned)
      || (t.attempts == s.attempts && t.unassigned == s.unassigned + 1)
  {
    var candidates := Candidates(s, event);
    if |candidates| == 1 && candidates[0] < |s.attempts| {
      var i := candidates[0];
      AttributedUpdate(s.attempts, i, Assigned(s, event, i).attempts[i], event);
    }
  }

  // The attributed events are among `wire`, and with the unassigned ones they are as many.
  ghost predicate Conserved(s: State, wire: multiset<Event>) {
    Attributed(s.attempts) <= wire && EventCount(s.attempts) + s.unassigned == |wire|
  }

  lemma WireConserves(s: State, event: Event, wire: multiset<Event>)
    requires Conserved(s, wire)
    ensures Conserved(AddEvent(s, event), wire + multiset{event})
  {
    var t := AddEvent(s, event);
    EventConserves(s, event);
    AddedEvent(Attributed(s.attempts), wire, event);
    assert Attributed(t.attempts) == Attributed(s.attempts) + multiset{event} || t.attempts == s.attempts;
  }

  lemma AddedEvent(some: multiset<Event>, wire: multiset<Event>, event: Event)
    requires some <= wire
    ensures some <= wire + multiset{event} && some + multiset{event} <= wire + multiset{event}
    ensures |wire + multiset{event}| == |wire| + 1
  {}

  // Nothing is lost and nothing is made up.
  lemma {:induction false} AttributionConserves(trace: seq<Entry>, n: nat)
    requires n <= |trace|
    ensures Conserved(Attribute(trace, n), WireEvents(trace, n))
  {
    if n > 0 {
      AttributionConserves(trace, n - 1);
      StepConserves(Attribute(trace, n - 1), trace[n - 1], WireEvents(trace, n - 1));
    }
  }

  lemma StepConserves(s: State, entry: Entry, wire: multiset<Event>)
    requires Conserved(s, wire)
    ensures Conserved(Step(s, entry), wire + if entry.Wire? then multiset{entry.event} else multiset{})
  {
    match entry
    case Request(_, _, _) => RequestConserves(s, entry);
    case Wire(event) => WireConserves(s, event, wire);
    case Other =>
  }

  // The requests of a trace, in order.
  function Requests(trace: seq<Entry>, n: nat): seq<Entry>
    requires n <= |trace|
  {
    if n == 0 then [] else Requests(trace, n - 1) + if trace[n - 1].Request? then [trace[n - 1]] else []
  }

  ghost predicate HasEnd(attempt: Attempt) {
    exists k :: 0 <= k < |attempt.events| && (attempt.events[k].isResponse || attempt.events[k].finishes)
  }

  ghost predicate Superseded(attempts: seq<Attempt>, i: nat)
    requires i < |attempts|
  {
    exists j :: i < j < |attempts| && SameProbe(attempts[i], attempts[j])
  }

  // Attempt i is closed exactly when its response has ended or a later probe of its identity began.
  ghost predicate ClosedRight(attempts: seq<Attempt>, i: nat)
    requires i < |attempts|
  {
    attempts[i].closed <==> HasEnd(attempts[i]) || Superseded(attempts, i)
  }

  ghost predicate AllClosedRight(attempts: seq<Attempt>) {
    forall i :: 0 <= i < |attempts| ==> ClosedRight(attempts, i)
  }

  lemma RequestKeepsClosed(s: State, entry: Entry)
    requires AllClosedRight(s.attempts) && entry.Request?
    ensures AllClosedRight(AddRequest(s, entry).attempts)
  {
    var t := AddRequest(s, entry);
    var n := |s.attempts|;
    forall i | 0 <= i < n
      ensures ClosedRight(t.attempts, i)
    {
      assert ClosedRight(s.attempts, i);
      assert HasEnd(t.attempts[i]) <==> HasEnd(s.attempts[i]);
      assert forall j :: i < j < n ==>
        (SameProbe(t.attempts[i], t.attempts[j]) <==> SameProbe(s.attempts[i], s.attempts[j]));
      if SameProbe(t.attempts[i], t.attempts[n]) { assert Superseded(t.attempts, i); }
    }
  }

  lemma EndsWith(attempt: Attempt, event: Event)
    ensures HasEnd(attempt.(events := attempt.events + [event])) <==>
              HasEnd(attempt) || event.isResponse || event.finishes
  {
    var events := attempt.events + [event];
    assert events[|attempt.events|] == event;
    assert forall k :: 0 <= k < |attempt.events| ==> events[k] == attempt.events[k];
  }

  lemma AssignedKeepsClosed(s: State, event: Event, i: nat)
    requires AllClosedRight(s.attempts) && i < |s.attempts|
    ensures AllClosedRight(Assigned(s, event, i).attempts)
  {
    var t := Assigned(s, event, i);
    EndsWith(s.attempts[i], event);
    forall k | 0 <= k < |s.attempts|
      ensures ClosedRight(t.attempts, k)
    {
      assert ClosedRight(s.attempts, k);
      assert HasEnd(t.attempts[i]) <==> HasEnd(s.attempts[i].(events := s.attempts[i].events + [event]));
      SameSuperseded(s.attempts, t.attempts, k);
    }
  }

  lemma SameSuperseded(a: seq<Attempt>, b: seq<Attempt>, k: nat)
    requires k < |a| == |b|
    requires forall j :: 0 <= j < |a| ==> a[j].relevant == b[j].relevant && a[j].identity == b[j].identity
    ensures Superseded(a, k) <==> Superseded(b, k)
  {
    assert forall j :: k < j < |a| ==> (SameProbe(a[k], a[j]) <==> SameProbe(b[k], b[j]));
  }

  // There is one attempt for every request, in order, and each is closed for the right reason alone.
  lemma {:induction false} AttemptsAreTheRequests(trace: seq<Entry>, n: nat)
    requires n <= |trace|
    ensures var attempts := Attribute(trace, n).attempts; var requests := Requests(trace, n);
      && |attempts| == |requests| && (forall i :: 0 <= i < |attempts| ==> attempts[i].request == requests[i])
      && AllClosedRight(attempts)
  {
    if n > 0 {
      AttemptsAreTheRequests(trace, n - 1);
      var s := Attribute(trace, n - 1);
      match trace[n - 1]
      case Request(_, _, _) => RequestKeepsClosed(s, trace[n - 1]);
      case Wire(event) =>
        var candidates := Candidates(s, event);
        if |candidates| == 1 && candidates[0] < |s.attempts| { AssignedKeepsClosed(s, event, candidates[0]); }
      case Other =>
    }
  }

  // ----- The verdict -----

  datatype Client = Client(isBedrock: bool, bedrockHost: string -> bool)

  function Relevant(attempts: seq<Attempt>): seq<Attempt> {
    if attempts == [] then []
    else Relevant(attempts[..|attempts| - 1])
         + if attempts[|attempts| - 1].relevant then [attempts[|attempts| - 1]] else []
  }

  function Replays(attempts: seq<Attempt>): seq<Attempt> {
    if attempts == [] then []
    else Replays(attempts[..|attempts| - 1])
         + if attempts[|attempts| - 1].request.Request? && attempts[|attempts| - 1].request.toolResult
           then [attempts[|attempts| - 1]] else []
  }

  predicate WrongClient(attempt: Attempt, client: Client) {
    (client.isBedrock || client.bedrockHost(attempt.identity.host)) && attempt.identity.protocol != "bedrock"
  }

  predicate HasCompletion(attempt: Attempt) {
    exists k :: 0 <= k < |attempt.events| && Completed(attempt.events[k])
  }

  predicate ReplayCompleted(replay: seq<Attempt>) {
    replay != [] && forall i :: 0 <= i < |replay| ==> HasCompletion(replay[i])
  }

  predicate Accepted(trace: seq<Entry>, returncode: int, client: Client) {
    var attempts := Relevant(Attribute(trace, |trace|).attempts);
    && (forall i :: 0 <= i < |attempts| ==> !WrongClient(attempts[i], client))
    && returncode == 0
    && ReplayCompleted(Replays(attempts))
  }

  predicate CarriesToolResult(attempt: Attempt) {
    attempt.request.Request? && attempt.request.toolResult
  }

  lemma {:induction false} RelevantSpec(attempts: seq<Attempt>)
    ensures forall a :: a in Relevant(attempts) <==> a in attempts && a.relevant
  {
    if attempts != [] {
      RelevantSpec(attempts[..|attempts| - 1]);
      assert attempts == attempts[..|attempts| - 1] + [attempts[|attempts| - 1]];
    }
  }

  lemma {:induction false} ReplaysSpec(attempts: seq<Attempt>)
    ensures forall a :: a in Replays(attempts) <==> a in attempts && CarriesToolResult(a)
  {
    if attempts != [] {
      ReplaysSpec(attempts[..|attempts| - 1]);
      assert attempts == attempts[..|attempts| - 1] + [attempts[|attempts| - 1]];
    }
  }

  // Every request with a tool result is a probe request, so the replays are all of them.
  lemma ReplaysAreAll(trace: seq<Entry>)
    ensures var attempts := Attribute(trace, |trace|).attempts;
      forall a :: a in Replays(Relevant(attempts)) <==> a in attempts && CarriesToolResult(a)
  {
    var attempts := Attribute(trace, |trace|).attempts;
    AttributeKeepsInv(trace, |trace|);
    RelevantSpec(attempts);
    ReplaysSpec(Relevant(attempts));
    forall a | a in attempts && CarriesToolResult(a)
      ensures a.relevant
    {
      assert RecordsOk(a);
    }
  }

  lemma ReplayCompletedSpec(replay: seq<Attempt>)
    ensures ReplayCompleted(replay) <==> (exists a :: a in replay) && forall a :: a in replay ==> HasCompletion(a)
  {
    if replay != [] { assert replay[0] in replay; }
    assert forall i :: 0 <= i < |replay| ==> replay[i] in replay;
  }

  // An event that is not a response itself and finishes one.
  ghost predicate Answered(attempt: Attempt) {
    exists k :: 0 <= k < |attempt.events| && attempt.events[k].finishes && !attempt.events[k].isResponse
  }

  // A probe is accepted exactly when the command succeeded through the right client, some request of
  // the trace carried a tool result, and each that did has a completion event attributed to it.
  lemma AcceptedMeansReplayed(trace: seq<Entry>, returncode: int, client: Client)
    ensures var attempts := Attribute(trace, |trace|).attempts;
      Accepted(trace, returncode, client) <==>
        && returncode == 0
        && (forall a :: a in attempts && a.relevant ==> !WrongClient(a, client))
        && (exists a :: a in attempts && CarriesToolResult(a))
        && (forall a :: a in attempts && CarriesToolResult(a) ==> Answered(a))
  {
    var attempts := Attribute(trace, |trace|).attempts;
    var relevant := Relevant(attempts);
    RelevantSpec(attempts);
    ReplaysAreAll(trace);
    ReplayCompletedSpec(Replays(relevant));
    assert forall a :: HasCompletion(a) <==> Answered(a);
    assert (forall i :: 0 <= i < |relevant| ==> !WrongClient(relevant[i], client))
      <==> forall a :: a in relevant ==> !WrongClient(a, client);
  }

  // ----- The ledger object -----

  class Ledger {
    var attempts: seq<Attempt>
    var bound: map<ResponseKey, nat>
    var unassigned: nat

    ghost function View(): State
      reads this
    {
      State(attempts, bound, unassigned)
    }

    constructor ()
      ensures View() == INITIAL
    {
      attempts, bound, unassigned := [], map[], 0;
    }

    method AddRequestEntry(entry: Entry)
      requires entry.Request?
      modifies this
      ensures View() == AddRequest(old(View()), entry)
    {
      var relevant := entry.declared || entry.toolResult;
      if relevant {
        CloseAll(entry.identity);
      }
      attempts := attempts + [Attempt(entry, [], relevant, entry.identity, false)];
    }

    method CloseAll(identity: Identity)
      modifies `attempts
      ensures attempts == ClosePrevious(old(attempts), identity)
    {
      for i := 0 to |attempts|
        invariant |attempts| == |old(attempts)|
        invariant forall k :: 0 <= k < |attempts| ==>
                    attempts[k] == if k < i then ClosePrevious(old(attempts), identity)[k] else old(attempts)[k]
      {
        if attempts[i].relevant {
          if attempts[i].identity == identity {
            attempts := attempts[i := attempts[i].(closed := true)];
          }
        }
      }
    }

    method FindCandidates(event: Event) returns (candidates: seq<nat>)
      ensures candidates == Candidates(View(), event)
    {
      var key := (event.provider, event.responseId);
      if key in bound { return [bound[key]]; }
      var matching, active: seq<nat> := [], [];
      for i := 0 to |attempts|
        invariant matching == Matching(attempts, event, i) && active == Active(attempts, event, i)
      {
        if Matches(attempts[i], event) {
          matching := matching + [i];
          if !attempts[i].closed {
            active := active + [i];
          }
        }
      }
      if active != [] { return active; }
      if event.trailingUsage && matching != [] { return [matching[|matching| - 1]]; }
      return [];
    }

    method AddWireEvent(event: Event)
      requires forall key :: key in bound ==> bound[key] < |attempts|
      modifies this
      ensures View() == AddEvent(old(View()), event)
    {
      var candidates := FindCandidates(event);
      CandidatesAreAttempts(View(), event);
      if |candidates| != 1 {
        unassigned := unassigned + 1;
        return;
      }
      var i := candidates[0];
      assert i in candidates;
      var attempt := attempts[i];
      var closes := Completed(event) || event.isResponse;
      attempts := attempts[i := attempt.(events := attempt.events + [event], closed := attempt.closed || closes)];
      if event.responseId != "" {
        bound := bound[(event.provider, event.responseId) := i];
      }
    }
  }

  method AttributeEvents(entries: seq<Entry>) returns (attempts: seq<Attempt>, unassigned: nat)
    ensures attempts == Attribute(entries, |entries|).attempts
    ensures unassigned == Attribute(entries, |entries|).unassigned
  {
    var ledger := new Ledger();
    for n := 0 to |entries|
      invariant fresh(ledger) && ledger.View() == Attribute(entries, n)
    {
      AttributeKeepsInv(entries, n);
      match entries[n]
      case Request(_, _, _) => ledger.AddRequestEntry(entries[n]);
      case Wire(event) => ledger.AddWireEvent(event);
      case Other =>
    }
    return ledger.attempts, ledger.unassigned;
  }
}
