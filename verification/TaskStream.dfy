// The task stream of crates/harnx-a2a-server/src/sse.rs: a task snapshot, then the updates a bounded
// broadcast receiver delivers, filtered by sequence number and closed at a response boundary.
module TaskStream {
  import opened Options

  datatype TaskState =
    Submitted | Working | Unspecified | Completed | Canceled | Failed | Rejected | InputRequired | AuthRequired

  predicate Ends(state: TaskState)
    ensures Ends(state) <==> state !in {Submitted, Working, Unspecified}
  {
    state.Completed? || state.Canceled? || state.Failed? || state.Rejected? || state.InputRequired?
        || state.AuthRequired?
  }

  datatype Response = StatusUpdate(state: TaskState) | OtherUpdate(body: int)

  datatype Event = Event(sequence: nat, response: Response) {
    predicate EndsResponse() {
      response.StatusUpdate? && Ends(response.state)
    }
  }

  // What one `recv` returns; Interrupted is a lagged or closed receiver.
  datatype Received = Got(event: Event) | Interrupted

  datatype Record = Record(state: TaskState, streamSeq: nat)

  datatype Item = Task(record: Record) | Update(event: Event) | StreamError

  // ----- What the stream should carry -----

  // A new running maximum above the snapshot's sequence number.
  ghost predicate IsRecord(feed: seq<Received>, base: nat, i: nat)
    requires i < |feed|
  {
    && feed[i].Got? && feed[i].event.sequence > base
    && forall j :: 0 <= j < i && feed[j].Got? ==> feed[j].event.sequence < feed[i].event.sequence
  }

  ghost function Records(feed: seq<Received>, base: nat, n: nat): seq<Event>
    requires n <= |feed|
  {
    if n == 0 then []
    else Records(feed, base, n - 1) + if IsRecord(feed, base, n - 1) then [feed[n - 1].event] else []
  }

  function FirstInterruption(feed: seq<Received>): (n: nat)
    ensures n <= |feed| && (forall i :: 0 <= i < n ==> feed[i].Got?) && (n < |feed| ==> feed[n].Interrupted?)
  {
    if feed == [] || feed[0].Interrupted? then 0 else 1 + FirstInterruption(feed[1..])
  }

  // Everything up to and including the first boundary.
  function Truncate(events: seq<Event>): seq<Event> {
    if events == [] then []
    else if events[0].EndsResponse() then [events[0]]
    else [events[0]] + Truncate(events[1..])
  }

  predicate HasBoundary(events: seq<Event>) {
    exists i :: 0 <= i < |events| && events[i].EndsResponse()
  }

  function Updates(events: seq<Event>): seq<Item> {
    if events == [] then [] else [Update(events[0])] + Updates(events[1..])
  }

  ghost function Expected(snapshot: Record, events: Option<seq<Received>>): seq<Item> {
    [Task(snapshot)] +
    if Ends(snapshot.state) || events.None? then []
    else
      var q := FirstInterruption(events.value);
      var records := Records(events.value, snapshot.streamSeq, q);
      if HasBoundary(records) then Updates(Truncate(records))
      else Updates(records) + if q < |events.value| then [StreamError] else []
  }

  lemma RecordsNext(feed: seq<Received>, base: nat, n: nat)
    requires n < |feed|
    ensures IsRecord(feed, base, n) ==> Records(feed, base, n + 1) == Records(feed, base, n) + [feed[n].event]
    ensures !IsRecord(feed, base, n) ==> Records(feed, base, n + 1) == Records(feed, base, n)
  {}

  lemma {:induction false} TruncateSpec(events: seq<Event>)
    ensures Truncate(events) <= events
    ensures !HasBoundary(events) ==> Truncate(events) == events
    ensures HasBoundary(events) ==>
              && Truncate(events) != [] && Truncate(events)[|Truncate(events)| - 1].EndsResponse()
              && !HasBoundary(Truncate(events)[..|Truncate(events)| - 1])
  {
    if events != [] && !events[0].EndsResponse() {
      TruncateSpec(events[1..]);
      var rest := Truncate(events[1..]);
      assert Truncate(events) == [events[0]] + rest;
      if HasBoundary(events) {
        var i :| 0 <= i < |events| && events[i].EndsResponse();
        assert events[1..][i - 1].EndsResponse();
        assert Truncate(events)[..|Truncate(events)| - 1] == [events[0]] + rest[..|rest| - 1];
      } else {
        assert forall i :: 0 <= i < |events[1..]| ==> events[1..][i] == events[i + 1];
      }
    }
  }

  lemma {:induction false} UpdatesConcat(a: seq<Event>, b: seq<Event>)
    ensures Updates(a + b) == Updates(a) + Updates(b)
  {
    if a == [] {
      assert a + b == b;
    } else {
      assert (a + b)[1..] == a[1..] + b;
      UpdatesConcat(a[1..], b);
    }
  }

  lemma {:induction false} RecordsGrow(feed: seq<Received>, base: nat, m: nat, n: nat)
    requires m <= n <= |feed|
    ensures Records(feed, base, m) <= Records(feed, base, n)
    decreases n
  {
    if m < n {
      RecordsGrow(feed, base, m, n - 1);
    }
  }

  lemma {:induction false} TruncateAtBoundary(events: seq<Event>, more: seq<Event>)
    requires events != [] && events[|events| - 1].EndsResponse() && !HasBoundary(events[..|events| - 1])
    ensures Truncate(events + more) == events && HasBoundary(events + more)
  {
    assert (events + more)[|events| - 1].EndsResponse();
    if |events| > 1 {
      assert !events[0].EndsResponse() by { assert events[..|events| - 1][0] == events[0]; }
      assert (events + more)[1..] == events[1..] + more;
      assert events[1..][..|events| - 2] == events[..|events| - 1][1..];
      TruncateAtBoundary(events[1..], more);
    } else {
      assert (events + more)[0] == events[0];
    }
  }

  lemma BoundaryEnds(feed: seq<Received>, base: nat, i: nat)
    requires i < |feed| && (forall j :: 0 <= j <= i ==> feed[j].Got?)
    requires IsRecord(feed, base, i) && feed[i].event.EndsResponse() && !HasBoundary(Records(feed, base, i))
    ensures var all := Records(feed, base, FirstInterruption(feed));
      HasBoundary(all) && Truncate(all) == Records(feed, base, i + 1)
    ensures HasBoundary(Records(feed, base, |feed|))
  {
    var q, events := FirstInterruption(feed), Records(feed, base, i + 1);
    assert events[..|events| - 1] == Records(feed, base, i);
    forall n | i < n <= |feed|
      ensures HasBoundary(Records(feed, base, n)) && Truncate(Records(feed, base, n)) == events
    {
      RecordsGrow(feed, base, i + 1, n);
      var all := Records(feed, base, n);
      assert all == events + all[|events|..];
      TruncateAtBoundary(events, all[|events|..]);
    }
    assert i < q;
  }

  // `sequence` is the largest sequence number seen so far, the snapshot's included.
  ghost predicate MaxSoFar(feed: seq<Received>, base: nat, n: nat, sequence: nat)
    requires n <= |feed|
  {
    && (forall j :: 0 <= j < n ==> feed[j].Got? && feed[j].event.sequence <= sequence)
    && sequence >= base
    && (sequence == base || exists j :: 0 <= j < n && feed[j].Got? && feed[j].event.sequence == sequence)
  }

  lemma RecordMeansLarger(feed: seq<Received>, base: nat, n: nat, sequence: nat)
    requires n < |feed| && feed[n].Got? && MaxSoFar(feed, base, n, sequence)
    ensures IsRecord(feed, base, n) <==> feed[n].event.sequence > sequence
    ensures MaxSoFar(feed, base, n + 1, if feed[n].event.sequence > sequence then feed[n].event.sequence else sequence)
  {}

  lemma InterruptedAt(feed: seq<Received>, n: nat)
    requires n <= |feed| && (forall j :: 0 <= j < n ==> feed[j].Got?) && (n < |feed| ==> feed[n].Interrupted?)
    ensures FirstInterruption(feed) == n
  {}

  lemma ClosedByBoundary(snapshot: Record, feed: seq<Received>, i: nat)
    requires !Ends(snapshot.state) && i < |feed| && (forall j :: 0 <= j <= i ==> feed[j].Got?)
    requires IsRecord(feed, snapshot.streamSeq, i) && feed[i].event.EndsResponse()
    requires !HasBoundary(Records(feed, snapshot.streamSeq, i))
    ensures Expected(snapshot, Some(feed)) == Sent(snapshot, feed, i + 1)
    ensures HasBoundary(Records(feed, snapshot.streamSeq, |feed|))
  {
    BoundaryEnds(feed, snapshot.streamSeq, i);
  }

  lemma NotClosed(snapshot: Record, feed: seq<Received>, n: nat)
    requires !Ends(snapshot.state) && FirstInterruption(feed) == n <= |feed|
    requires !HasBoundary(Records(feed, snapshot.streamSeq, n))
    ensures Expected(snapshot, Some(feed)) == Sent(snapshot, feed, n) + if n < |feed| then [StreamError] else []
  {}

  // What has been sent after n arrivals.
  ghost function Sent(snapshot: Record, feed: seq<Received>, n: nat): seq<Item>
    requires n <= |feed|
  {
    [Task(snapshot)] + Updates(Records(feed, snapshot.streamSeq, n))
  }

  lemma SentNext(snapshot: Record, feed: seq<Received>, n: nat, sequence: nat)
    requires n < |feed| && feed[n].Got? && MaxSoFar(feed, snapshot.streamSeq, n, sequence)
    ensures Sent(snapshot, feed, n + 1)
         == Sent(snapshot, feed, n) + if feed[n].event.sequence > sequence then [Update(feed[n].event)] else []
    ensures feed[n].event.sequence > sequence <==> IsRecord(feed, snapshot.streamSeq, n)
    ensures !HasBoundary(Records(feed, snapshot.streamSeq, n))
            && (feed[n].event.sequence > sequence ==> !feed[n].event.EndsResponse()) ==>
              !HasBoundary(Records(feed, snapshot.streamSeq, n + 1))
  {
    var records, event := Records(feed, snapshot.streamSeq, n), feed[n].event;
    RecordMeansLarger(feed, snapshot.streamSeq, n, sequence);
    RecordsNext(feed, snapshot.streamSeq, n);
    UpdatesConcat(records, [event]);
    assert Updates([event]) == [Update(event)];
  }

  // The unfold loop, run over a finite feed. The stream carries exactly the running maxima above the
  // snapshot's sequence number, up to and including the first boundary; a lost delta ends it with
  // the one error; and it stays open only while neither has come.
  method StreamTask(snapshot: Record, events: Option<seq<Received>>) returns (out: seq<Item>, open: bool)
    ensures out == Expected(snapshot, events)
    ensures open <==>
      && events.Some? && !Ends(snapshot.state)
      && FirstInterruption(events.value) == |events.value|
      && !HasBoundary(Records(events.value, snapshot.streamSeq, |events.value|))
  {
    if Ends(snapshot.state) || events.None? {
      return [Task(snapshot)], false;
    }
    out, open := Unfold(snapshot, events.value);
  }

  method Unfold(snapshot: Record, feed: seq<Received>) returns (out: seq<Item>, open: bool)
    requires !Ends(snapshot.state)
    ensures out == Expected(snapshot, Some(feed))
    ensures open <==>
      && FirstInterruption(feed) == |feed| && !HasBoundary(Records(feed, snapshot.streamSeq, |feed|))
  {
    var sequence := snapshot.streamSeq;
    ghost var base := snapshot.streamSeq;
    out := [Task(snapshot)];
    var i := 0;
    while i < |feed|
      invariant i <= |feed| && MaxSoFar(feed, base, i, sequence)
      invariant out == Sent(snapshot, feed, i)
      invariant !HasBoundary(Records(feed, base, i))
    {
      if feed[i].Interrupted? {
        InterruptedAt(feed, i);
        NotClosed(snapshot, feed, i);
        out := out + [StreamError];
        return out, false;
      }
      var event := feed[i].event;
      RecordMeansLarger(feed, base, i, sequence);
      SentNext(snapshot, feed, i, sequence);
      i := i + 1;
      if event.sequence <= sequence { continue; }
      sequence := event.sequence;
      out := out + [Update(event)];
      if event.EndsResponse() {
        ClosedByBoundary(snapshot, feed, i - 1);
        return out, false;
      }
    }
    InterruptedAt(feed, |feed|);
    NotClosed(snapshot, feed, |feed|);
    open := true;
  }

  lemma {:induction false} UpdatesAt(events: seq<Event>, i: nat)
    requires i < |events|
    ensures |Updates(events)| == |events| && Updates(events)[i] == Update(events[i])
  {
    if i > 0 {
      UpdatesAt(events[1..], i - 1);
    } else if |events| > 1 {
      UpdatesAt(events[1..], 0);
    }
  }

  predicate Closes(item: Item) {
    item.StreamError? || (item.Update? && item.event.EndsResponse())
  }

  // Only the very last item can be a boundary event or the error.
  lemma NothingFollowsTheClose(snapshot: Record, events: Option<seq<Received>>, i: nat)
    requires 0 < i < |Expected(snapshot, events)| - 1
    ensures Expected(snapshot, events)[i].Update? && !Closes(Expected(snapshot, events)[i])
  {
    var q := FirstInterruption(events.value);
    var records := Records(events.value, snapshot.streamSeq, q);
    TruncateSpec(records);
    var sent := if HasBoundary(records) then Truncate(records) else records;
    if sent != [] { UpdatesAt(sent, 0); }
    if i - 1 < |sent| { UpdatesAt(sent, i - 1); }
    if HasBoundary(records) {
      assert sent[..|sent| - 1][i - 1] == sent[i - 1];
    }
  }

  // ----- Exactly-once delivery -----

  // Published events, in order; `base` is the sequence number the snapshot reflects.
  ghost predicate InOrder(published: seq<Event>) {
    forall i, j :: 0 <= i < j < |published| ==> published[i].sequence < published[j].sequence
  }

  function Behind(published: seq<Event>, base: nat): (n: nat)
    ensures n <= |published|
    ensures forall i :: 0 <= i < n ==> published[i].sequence <= base
    ensures n < |published| ==> published[n].sequence > base
  {
    if published == [] || published[0].sequence > base then 0 else 1 + Behind(published[1..], base)
  }

  // A feed that delivers published events, given by position, in any order and any number of times.
  function Feed(published: seq<Event>, order: seq<nat>): seq<Received>
    requires forall i :: 0 <= i < |order| ==> order[i] < |published|
  {
    seq(|order|, i requires 0 <= i < |order| => Got(published[order[i]]))
  }

  // Everything from position `first` on arrives, maybe repeatedly, and nothing arrives before all
  // the earlier ones have. Events before `first`, old news to the client, may turn up at any point.
  ghost predicate AtLeastOnce(order: seq<nat>, first: nat, total: nat) {
    && (forall i :: 0 <= i < |order| ==> order[i] < total)
    && (forall m :: first <= m < total ==> m in order)
    && (forall i, k :: 0 <= i < |order| && first <= k < order[i] ==> k in order[..i])
  }

  // After n arrivals, exactly the first c of the newer published events have come.
  ghost predicate CameSoFar(order: seq<nat>, first: nat, total: nat, n: nat, c: nat)
    requires n <= |order|
  {
    first + c <= total && forall m :: first <= m < total ==> (m in order[..n] <==> m < first + c)
  }

  lemma NextArrival(order: seq<nat>, first: nat, total: nat, n: nat, c: nat)
    requires AtLeastOnce(order, first, total) && n < |order| && CameSoFar(order, first, total, n, c)
    ensures order[n] <= first + c
    ensures CameSoFar(order, first, total, n + 1, if order[n] == first + c then c + 1 else c)
  {
    var m := order[n];
    if m > first {
      assert m - 1 in order[..n];
    }
    assert order[..n + 1] == order[..n] + [m];
  }

  lemma ArrivalIsRecord(published: seq<Event>, order: seq<nat>, base: nat, n: nat, c: nat)
    requires InOrder(published) && AtLeastOnce(order, Behind(published, base), |published|)
    requires n < |order| && CameSoFar(order, Behind(published, base), |published|, n, c)
    ensures IsRecord(Feed(published, order), base, n) <==> order[n] == Behind(published, base) + c
  {
    var first, feed := Behind(published, base), Feed(published, order);
    NextArrival(order, first, |published|, n, c);
    if order[n] == first + c {
      forall j | 0 <= j < n
        ensures feed[j].event.sequence < feed[n].event.sequence
      {
        assert order[j] in order[..n];
        assert order[j] < order[n];
      }
      assert published[first].sequence <= published[order[n]].sequence;
    } else if order[n] >= first {
      assert order[n] in order[..n];
      var j :| 0 <= j < n && order[..n][j] == order[n];
      assert feed[j] == feed[n];
    }
  }

  // One more arrival: one more published event recorded, or none.
  lemma RecordsOneMore(published: seq<Event>, order: seq<nat>, base: nat, n: nat, c: nat) returns (d: nat)
    requires InOrder(published) && AtLeastOnce(order, Behind(published, base), |published|) && n < |order|
    requires CameSoFar(order, Behind(published, base), |published|, n, c)
    requires Records(Feed(published, order), base, n) == published[Behind(published, base)..Behind(published, base) + c]
    ensures CameSoFar(order, Behind(published, base), |published|, n + 1, d)
    ensures Records(Feed(published, order), base, n + 1)
         == published[Behind(published, base)..Behind(published, base) + d]
  {
    ArrivalIsRecord(published, order, base, n, c);
    NextArrival(order, Behind(published, base), |published|, n, c);
    d := if order[n] == Behind(published, base) + c then c + 1 else c;
    RecordsFollow(published, order, base, n, Behind(published, base), c);
  }

  lemma RecordsFollow(published: seq<Event>, order: seq<nat>, base: nat, n: nat, first: nat, c: nat)
    requires (forall i :: 0 <= i < |order| ==> order[i] < |published|) && n < |order| && first + c <= |published|
    requires Records(Feed(published, order), base, n) == published[first..first + c]
    requires IsRecord(Feed(published, order), base, n) <==> order[n] == first + c
    ensures order[n] == first + c ==>
              Records(Feed(published, order), base, n + 1) == published[first..first + c + 1]
    ensures order[n] != first + c ==> Records(Feed(published, order), base, n + 1) == published[first..first + c]
  {}

  lemma {:induction false} RecordsArePublished(published: seq<Event>, order: seq<nat>, base: nat, n: nat)
      returns (c: nat)
    requires InOrder(published) && AtLeastOnce(order, Behind(published, base), |published|) && n <= |order|
    ensures CameSoFar(order, Behind(published, base), |published|, n, c)
    ensures Records(Feed(published, order), base, n) == published[Behind(published, base)..Behind(published, base) + c]
  {
    c := 0;
    if n > 0 {
      c := RecordsArePublished(published, order, base, n - 1);
      c := RecordsOneMore(published, order, base, n - 1, c);
    }
  }

  function Fold<S>(f: (S, Event) -> S, s: S, events: seq<Event>): S
    decreases |events|
  {
    if events == [] then s else Fold(f, f(s, events[0]), events[1..])
  }

  lemma {:induction false} FoldConcat<S>(f: (S, Event) -> S, s: S, a: seq<Event>, b: seq<Event>)
    ensures Fold(f, s, a + b) == Fold(f, Fold(f, s, a), b)
    decreases |a|
  {
    if a == [] {
      assert a + b == b;
    } else {
      assert (a + b)[1..] == a[1..] + b;
      FoldConcat(f, f(s, a[0]), a[1..], b);
    }
  }

  lemma AllCame(order: seq<nat>, first: nat, total: nat, c: nat)
    requires AtLeastOnce(order, first, total) && CameSoFar(order, first, total, |order|, c) && first <= total
    ensures first + c == total
  {
    assert order[..|order|] == order;
    if first < total {
      assert total - 1 in order;
    }
  }

  lemma AllNewerArrive(published: seq<Event>, order: seq<nat>, base: nat)
    requires InOrder(published) && AtLeastOnce(order, Behind(published, base), |published|)
    ensures FirstInterruption(Feed(published, order)) == |order|
    ensures Records(Feed(published, order), base, |order|) == published[Behind(published, base)..]
  {
    var first := Behind(published, base);
    var c := RecordsArePublished(published, order, base, |order|);
    AllCame(order, first, |published|, c);
    InterruptedAt(Feed(published, order), |order|);
    assert published[first..|published|] == published[first..];
  }

  lemma FoldOfTruncated<S>(f: (S, Event) -> S, start: S, published: seq<Event>, first: nat)
    requires first <= |published|
    ensures var sent := Truncate(published[first..]);
      && first + |sent| <= |published|
      && sent == published[first..first + |sent|]
      && Fold(f, Fold(f, start, published[..first]), sent) == Fold(f, start, published[..first + |sent|])
  {
    var newer := published[first..];
    var sent := Truncate(newer);
    TruncateSpec(newer);
    assert sent == newer[..|sent|] == published[first..first + |sent|];
    FoldConcat(f, start, published[..first], sent);
    assert published[..first] + sent == published[..first + |sent|];
  }

  lemma WholeFeed(snapshot: Record, feed: seq<Received>, records: seq<Event>)
    requires !Ends(snapshot.state) && FirstInterruption(feed) == |feed|
    requires Records(feed, snapshot.streamSeq, |feed|) == records
    ensures Expected(snapshot, Some(feed)) == [Task(snapshot)] + Updates(Truncate(records))
  {
    TruncateSpec(records);
  }

  // Over any at-least-once feed whose first occurrences come in order, the stream is the snapshot
  // followed by each newer published event exactly once, up to the closing point. So a client that
  // folds them reaches the state of applying every published event up to there exactly once.
  lemma DeliversExactlyOnce<S>(f: (S, Event) -> S, start: S, snapshot: Record, published: seq<Event>, order: seq<nat>)
    requires InOrder(published) && !Ends(snapshot.state)
    requires AtLeastOnce(order, Behind(published, snapshot.streamSeq), |published|)
    ensures var first := Behind(published, snapshot.streamSeq); var sent := Truncate(published[first..]);
      && Expected(snapshot, Some(Feed(published, order))) == [Task(snapshot)] + Updates(sent)
      && first + |sent| <= |published|
      && sent == published[first..first + |sent|]
      && Fold(f, Fold(f, start, published[..first]), sent) == Fold(f, start, published[..first + |sent|])
  {
    AllNewerArrive(published, order, snapshot.streamSeq);
    WholeFeed(snapshot, Feed(published, order), published[Behind(published, snapshot.streamSeq)..]);
    FoldOfTruncated(f, start, published, Behind(published, snapshot.streamSeq));
  }
}
