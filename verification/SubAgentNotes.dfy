// The sub-agent note reducer of web/src/subAgentNotes.ts. An event carries the values the reducer's
// decoders extract from it (None where a decoder returns undefined), and the current time.
module SubAgentNotes {
  import opened Options

  type Text = s: string | s != "" witness "x"

  datatype Status = Running | Done | Failed | Cancelling | Cancelled | Unconfirmed | AwaitingApproval

  datatype Metrics = Metrics(elapsedMs: real, inputTokens: real, outputTokens: real, cachedTokens: real,
      toolCallCount: real)

  datatype Note = Note(
    id: string, invocationId: Option<Text>, toolCallId: Option<Text>, agent: Text, title: Option<string>,
    sessionId: Text, parentMessageId: Text, status: Status, metrics: Metrics, updatedAtMs: real,
    startedAtMs: Option<real>)

  datatype State = State(notes: seq<Note>, latestParentMessageId: Option<Text>, parentByToolCall: map<Text, Text>)

  const INITIAL := State([], None, map[])

  datatype Marker = Marker(agent: Text, sessionId: Text)

  datatype Progress = Progress(
    invocationId: Text, toolCallId: Option<Text>, agent: Text, title: Option<string>, sessionId: Text,
    status: Status, metrics: Metrics, startedAtMs: Option<real>)

  // The three readings of a tool result's content.
  datatype Content = Content(progress: Option<Progress>, marker: Option<Marker>, partialMarker: Option<Marker>)

  datatype Message =
    | AssistantMessage(id: Option<Text>, toolCalls: seq<Option<Text>>)
    | ToolMessage(toolCallId: Option<Text>, content: Content)
    | OtherMessage

  datatype Event =
    | Reset
    | RunStarted
    | ToolCallStart(parentMessageId: Option<Text>)
    | SubAgentProgress(value: Option<Progress>)
    | ToolCallResult(content: Content, callId: Option<Text>)
    | MessagesSnapshot(messages: seq<Message>)
    | RunFinished
    | RunError
    | ChildTerminal(invocationId: Option<string>, toolCallId: Option<string>, status: Option<string>)
    | ChildAwaitingApproval(invocationId: Option<string>, toolCallId: Option<string>)
    | ChildRunning(invocationId: Option<string>, toolCallId: Option<string>)
    | Unrecognised

  function FindIndex(notes: seq<Note>, p: Note -> bool): Option<nat> {
    if notes == [] then None
    else if p(notes[0]) then Some(0)
    else
      var rest := FindIndex(notes[1..], p);
      if rest.Some? then Some(rest.value + 1) else None
  }

  function FindLastIndex(notes: seq<Note>, p: Note -> bool): Option<nat> {
    if notes == [] then None
    else if p(notes[|notes| - 1]) then Some(|notes| - 1)
    else FindLastIndex(notes[..|notes| - 1], p)
  }

  // ----- Restoring a snapshot -----

  function ParentsOfCalls(parent: Text, calls: seq<Option<Text>>, parents: map<Text, Text>): map<Text, Text> {
    if calls == [] then parents
    else ParentsOfCalls(parent, calls[1..], if calls[0].Some? then parents[calls[0].value := parent] else parents)
  }

  function Parents(messages: seq<Message>, parents: map<Text, Text>): map<Text, Text> {
    if messages == [] then parents
    else
      var m := messages[0];
      Parents(messages[1..],
              if m.AssistantMessage? && m.id.Some? then ParentsOfCalls(m.id.value, m.toolCalls, parents) else parents)
  }

  function SnapshotId(parent: Text, call: Text): string {
    "snapshot:" + parent + ":" + call
  }

  function LiveId(invocation: Text): string {
    "live:" + invocation
  }

  function SnapshotNote(m: Message, parents: map<Text, Text>, now: real): Option<Note> {
    if !m.ToolMessage? || m.toolCallId.None? || m.toolCallId.value !in parents then None
    else
      var call, parent, c := m.toolCallId.value, parents[m.toolCallId.value], m.content;
      var note := Note(SnapshotId(parent, call), None, Some(call), parent, None, parent, parent, Done,
                       Metrics(0.0, 0.0, 0.0, 0.0, 0.0), now, None);
      if c.progress.Some? then
        var p := c.progress.value;
        Some(note.(invocationId := Some(p.invocationId), agent := p.agent, title := p.title,
                   sessionId := p.sessionId, status := p.status, metrics := p.metrics))
      else if c.marker.Some? then
        Some(note.(agent := c.marker.value.agent, sessionId := c.marker.value.sessionId))
      else if c.partialMarker.Some? then
        Some(note.(agent := c.partialMarker.value.agent, sessionId := c.partialMarker.value.sessionId,
            status := Failed))
      else None
  }

  // A map from id to note in JavaScript: a later note replaces an earlier one in its place.
  function PutById(notes: seq<Note>, note: Note): seq<Note> {
    if notes == [] then [note]
    else if notes[0].id == note.id then [note] + notes[1..]
    else [notes[0]] + PutById(notes[1..], note)
  }

  function NotesFromSnapshot(messages: seq<Message>, parents: map<Text, Text>, now: real, notes: seq<Note>): seq<Note> {
    if messages == [] then notes
    else
      var note := SnapshotNote(messages[0], parents, now);
      NotesFromSnapshot(messages[1..], parents, now, if note.Some? then PutById(notes, note.value) else notes)
  }

  function RestoreSnapshot(messages: seq<Message>, now: real): State {
    var parents := Parents(messages, map[]);
    State(NotesFromSnapshot(messages, parents, now, []), None, parents)
  }

  // ----- Live progress -----

  function StartedAt(p: Progress, existing: Option<Note>, now: real): Option<real> {
    if p.startedAtMs.Some? then p.startedAtMs
    else if existing.Some? then existing.value.startedAtMs
    else Some(now - p.metrics.elapsedMs)
  }

  function NoteFromProgress(p: Progress, parent: Text, existing: Option<Note>, now: real): Note {
    Note(if existing.Some? then existing.value.id else LiveId(p.invocationId),
         Some(p.invocationId),
         if p.toolCallId.None? && existing.Some? then existing.value.toolCallId else p.toolCallId,
         p.agent,
         if p.title.None? && existing.Some? then existing.value.title else p.title,
         p.sessionId, parent, p.status, p.metrics, now, StartedAt(p, existing, now))
  }

  predicate ProgressCanReplace(current: Status, incoming: Status) {
    if current == Done || current == Cancelled then false
    else if current == Failed then incoming == Done
    else true
  }

  predicate Matches(note: Note, p: Progress) {
    || note.invocationId == Some(p.invocationId)
    || (note.invocationId.None? && p.toolCallId.Some? && note.toolCallId == p.toolCallId)
  }

  function Matching(p: Progress): Note -> bool {
    (note: Note) => Matches(note, p)
  }

  predicate CanReplaceNote(existing: Note, p: Progress) {
    || ProgressCanReplace(existing.status, p.status)
    || (existing.invocationId.None? && p.status == existing.status)
  }

  function LaunchingParent(s: State, call: Option<Text>): Option<Text> {
    if call.Some? && call.value in s.parentByToolCall then Some(s.parentByToolCall[call.value])
    else s.latestParentMessageId
  }

  function ApplyProgress(s: State, p: Progress, now: real): State {
    match FindIndex(s.notes, Matching(p))
    case Some(i) =>
      if i >= |s.notes| || !CanReplaceNote(s.notes[i], p) then s
      else s.(notes := s.notes[i := NoteFromProgress(p, s.notes[i].parentMessageId, Some(s.notes[i]), now)])
    case None =>
      var parent := LaunchingParent(s, p.toolCallId);
      if parent.None? then s else s.(notes := s.notes + [NoteFromProgress(p, parent.value, None, now)])
  }

  // ----- Ending notes -----

  function Max0(x: real): real {
    if x < 0.0 then 0.0 else x
  }

  // Elapsed time of a note that still runs; a start time of 0 counts as absent.
  function ElapsedNow(note: Note, now: real): real {
    if note.startedAtMs.Some? && note.startedAtMs.value != 0.0 then Max0(now - note.startedAtMs.value)
    else note.metrics.elapsedMs + Max0(now - note.updatedAtMs)
  }

  function FreezeNote(note: Note, status: Status, now: real): Note {
    var elapsed := if note.status == Running then ElapsedNow(note, now) else note.metrics.elapsedMs;
    note.(status := status, metrics := note.metrics.(elapsedMs := elapsed), updatedAtMs := now)
  }

  predicate Unresolved(status: Status) {
    status == Running || status == AwaitingApproval
  }

  function SameIdentity(m: Marker): Note -> bool {
    (note: Note) => note.agent == m.agent && note.sessionId == m.sessionId
  }

  function CompleteNote(s: State, content: Content, fallbackToolCallId: Option<Text>, now: real): State {
    match content.progress
    case Some(p) =>
      var launchedBy := if p.toolCallId.Some? then p.toolCallId else fallbackToolCallId;
      ApplyProgress(s, p.(toolCallId := launchedBy, startedAtMs := None), now)
    case None =>
      if content.marker.None? then s
      else
        var m := content.marker.value;
        match FindLastIndex(s.notes, SameIdentity(m))
        case None => s
        case Some(i) => if i < |s.notes| then s.(notes := s.notes[i := FreezeNote(s.notes[i], Done, now)]) else s
  }

  function FailRunning(notes: seq<Note>, now: real): seq<Note> {
    if notes == [] then []
    else [if Unresolved(notes[0].status)
        then FreezeNote(notes[0], Failed, now) else notes[0]] + FailRunning(notes[1..], now)
  }

  function FailUnresolved(s: State, now: real): State {
    s.(latestParentMessageId := None, notes := FailRunning(s.notes, now))
  }

  function ByInvocation(invocation: string, p: Status -> bool): Note -> bool {
    (n: Note) => n.invocationId.Some? && n.invocationId.value == invocation && p(n.status)
  }

  function ByToolCall(call: string, p: Status -> bool): Note -> bool {
    (n: Note) => n.toolCallId.Some? && n.toolCallId.value == call && p(n.status)
  }

  function IsStatus(status: Status): Status -> bool {
    (st: Status) => st == status
  }

  function FindChild(s: State, invocation: Option<string>, call: Option<string>, p: Status -> bool): Option<nat> {
    var byInvocation :=
      if invocation.Some? && invocation.value != ""
      then FindIndex(s.notes, ByInvocation(invocation.value, p))
      else None;
    if byInvocation.Some? then byInvocation
    else if call.Some? && call.value != ""
    then FindIndex(s.notes, ByToolCall(call.value, p))
    else None
  }

  function TerminalStatus(status: Option<string>): Status {
    if status == Some("failed") then Failed else if status == Some("cancelled") then Cancelled else Done
  }

  function UpdateChild(s: State, target: Option<nat>, f: Note -> Note): State {
    if target.Some? && target.value < |s.notes|
        then s.(notes := s.notes[target.value := f(s.notes[target.value])]) else s
  }

  function Terminate(status: Option<string>, now: real): Note -> Note {
    (n: Note) => FreezeNote(n, TerminalStatus(status), now)
  }

  function Await(now: real): Note -> Note {
    (n: Note) => n.(status := AwaitingApproval, metrics := n.metrics.(elapsedMs := ElapsedNow(n, now)),
        updatedAtMs := now)
  }

  function Rerun(now: real): Note -> Note {
    (n: Note) => n.(status := Status.Running, updatedAtMs := now)
  }

  function Reduce(s: State, event: Event, now: real): State {
    match event
    case Reset => INITIAL
    case RunStarted => s.(latestParentMessageId := None)
    case ToolCallStart(parent) => if parent.None? then s else s.(latestParentMessageId := parent)
    case SubAgentProgress(value) => if value.None? then s else ApplyProgress(s, value.value, now)
    case ToolCallResult(content, call) => CompleteNote(s, content, call, now)
    case MessagesSnapshot(messages) => RestoreSnapshot(messages, now)
    case RunFinished => FailUnresolved(s, now)
    case RunError => FailUnresolved(s, now)
    case ChildTerminal(invocation, call, status) =>
      UpdateChild(s, FindChild(s, invocation, call, Unresolved), Terminate(status, now))
    case ChildAwaitingApproval(invocation, call) =>
      UpdateChild(s, FindChild(s, invocation, call, IsStatus(Running)), Await(now))
    case ChildRunning(invocation, call) =>
      UpdateChild(s, FindChild(s, invocation, call, IsStatus(AwaitingApproval)), Rerun(now))
    case Unrecognised => s
  }

  datatype Timed = At(event: Event, now: real)

  function Run(s: State, events: seq<Timed>): State
    decreases |events|
  {
    if events == [] then s else Run(Reduce(s, events[0].event, events[0].now), events[1..])
  }

  lemma {:induction false} FindIndexSpec(notes: seq<Note>, p: Note -> bool)
    ensures match FindIndex(notes, p)
            case Some(i) => i < |notes| && p(notes[i]) && forall j :: 0 <= j < i ==> !p(notes[j])
            case None => forall j :: 0 <= j < |notes| ==> !p(notes[j])
  {
    if notes != [] && !p(notes[0]) {
      FindIndexSpec(notes[1..], p);
      assert forall j :: 1 <= j < |notes| ==> notes[j] == notes[1..][j - 1];
    }
  }

  lemma {:induction false} FindLastIndexSpec(notes: seq<Note>, p: Note -> bool)
    ensures match FindLastIndex(notes, p)
            case Some(i) => i < |notes| && p(notes[i]) && forall j :: i < j < |notes| ==> !p(notes[j])
            case None => forall j :: 0 <= j < |notes| ==> !p(notes[j])
  {
    if notes != [] && !p(notes[|notes| - 1]) {
      FindLastIndexSpec(notes[..|notes| - 1], p);
    }
  }

  // ----- Ids stay unique -----

  ghost predicate UniqueIds(notes: seq<Note>) {
    forall i, j :: 0 <= i < j < |notes| ==> notes[i].id != notes[j].id
  }

  // A note created by live progress keeps its invocation id; any other came from a snapshot.
  ghost predicate Named(note: Note) {
    || (note.invocationId.Some? && note.id == LiveId(note.invocationId.value))
    || "snapshot:" <= note.id
  }

  ghost predicate NotesOk(notes: seq<Note>) {
    UniqueIds(notes) && forall i :: 0 <= i < |notes| ==> Named(notes[i])
  }

  lemma PrefixesDiffer(a: Text, b: string)
    requires "snapshot:" <= b
    ensures LiveId(a) != b
  {
    assert LiveId(a)[0] == 'l' && b[0] == "snapshot:"[0] == 's';
  }

  lemma LiveIdInjective(a: Text, b: Text)
    requires LiveId(a) == LiveId(b)
    ensures a == b
  {
    assert LiveId(a)[5..] == a && LiveId(b)[5..] == b;
  }

  lemma {:induction false} PutByIdSpec(notes: seq<Note>, note: Note)
    requires NotesOk(notes) && Named(note)
    ensures NotesOk(PutById(notes, note))
    ensures forall n :: n in PutById(notes, note) ==> n == note || n in notes
  {
    if notes != [] {
      if notes[0].id == note.id {
        assert forall i :: 1 <= i < |notes| ==> notes[i] == notes[1..][i - 1];
      } else {
        assert NotesOk(notes[1..]);
        PutByIdSpec(notes[1..], note);
        var r := PutById(notes[1..], note);
        forall j | 0 <= j < |r|
          ensures r[j].id != notes[0].id
        {
          assert r[j] in r;
          if r[j] != note {
            assert r[j] in notes[1..];
          }
        }
      }
    }
  }

  lemma {:induction false} SnapshotNotesOk(messages: seq<Message>, parents: map<Text, Text>, now: real,
      notes: seq<Note>)
    requires NotesOk(notes)
    ensures NotesOk(NotesFromSnapshot(messages, parents, now, notes))
    decreases |messages|
  {
    if messages != [] {
      var note := SnapshotNote(messages[0], parents, now);
      if note.Some? {
        assert "snapshot:" <= note.value.id;
        PutByIdSpec(notes, note.value);
      }
      SnapshotNotesOk(messages[1..], parents, now, if note.Some? then PutById(notes, note.value) else notes);
    }
  }

  lemma ProgressKeepsNames(s: State, p: Progress, now: real)
    requires NotesOk(s.notes)
    ensures NotesOk(ApplyProgress(s, p, now).notes)
  {
    FindIndexSpec(s.notes, Matching(p));
    match FindIndex(s.notes, Matching(p)) {
      case Some(i) =>
        assert Named(s.notes[i]);
      case None =>
        forall j | 0 <= j < |s.notes|
          ensures s.notes[j].id != LiveId(p.invocationId)
        {
          assert Named(s.notes[j]) && !Matches(s.notes[j], p);
          if "snapshot:" <= s.notes[j].id {
            PrefixesDiffer(p.invocationId, s.notes[j].id);
          } else if s.notes[j].id == LiveId(p.invocationId) {
            LiveIdInjective(s.notes[j].invocationId.value, p.invocationId);
          }
        }
    }
  }

  lemma {:induction false} FailRunningSpec(notes: seq<Note>, now: real)
    ensures var r := FailRunning(notes, now);
      |r| == |notes| && forall i :: 0 <= i < |r| ==>
        r[i] == if Unresolved(notes[i].status) then FreezeNote(notes[i], Failed, now) else notes[i]
  {
    if notes != [] {
      FailRunningSpec(notes[1..], now);
    }
  }

  lemma UpdateKeepsNames(notes: seq<Note>, i: nat, note: Note)
    requires NotesOk(notes) && i < |notes| && note.id == notes[i].id && note.invocationId == notes[i].invocationId
    ensures NotesOk(notes[i := note])
  {}

  lemma FailRunningKeepsNames(notes: seq<Note>, now: real)
    requires NotesOk(notes)
    ensures NotesOk(FailRunning(notes, now))
  {
    FailRunningSpec(notes, now);
    var r := FailRunning(notes, now);
    forall i | 0 <= i < |r|
      ensures r[i].id == notes[i].id && Named(r[i])
    {
      assert Named(notes[i]);
    }
  }

  // An update that leaves a note's names alone.
  ghost predicate KeepsNames(f: Note -> Note) {
    forall n: Note ::
      f(n).id == n.id && f(n).invocationId == n.invocationId && f(n).parentMessageId == n.parentMessageId
  }

  lemma UpdateChildKeepsNames(s: State, target: Option<nat>, f: Note -> Note)
    requires NotesOk(s.notes) && KeepsNames(f)
    ensures NotesOk(UpdateChild(s, target, f).notes)
  {}

  lemma CompleteKeepsNames(s: State, content: Content, call: Option<Text>, now: real)
    requires NotesOk(s.notes)
    ensures NotesOk(CompleteNote(s, content, call, now).notes)
  {
    match content.progress {
      case Some(p) =>
        ProgressKeepsNames(s, p.(toolCallId := if p.toolCallId.Some?
            then p.toolCallId else call, startedAtMs := None), now);
      case None =>
        if content.marker.Some? {
          match FindLastIndex(s.notes, SameIdentity(content.marker.value)) {
            case Some(i) => if i < |s.notes| { UpdateKeepsNames(s.notes, i, FreezeNote(s.notes[i], Done, now)); }
            case None =>
          }
        }
    }
  }

  lemma ReduceKeepsNames(s: State, event: Event, now: real)
    requires NotesOk(s.notes)
    ensures NotesOk(Reduce(s, event, now).notes)
  {
    match event {
      case MessagesSnapshot(messages) => SnapshotNotesOk(messages, Parents(messages, map[]), now, []);
      case SubAgentProgress(value) => if value.Some? { ProgressKeepsNames(s, value.value, now); }
      case ToolCallResult(content, call) => CompleteKeepsNames(s, content, call, now);
      case RunFinished => FailRunningKeepsNames(s.notes, now);
      case RunError => FailRunningKeepsNames(s.notes, now);
      case ChildTerminal(invocation, call, status) =>
        UpdateChildKeepsNames(s, FindChild(s, invocation, call, Unresolved), Terminate(status, now));
      case ChildAwaitingApproval(invocation, call) =>
        UpdateChildKeepsNames(s, FindChild(s, invocation, call, IsStatus(Running)), Await(now));
      case ChildRunning(invocation, call) =>
        UpdateChildKeepsNames(s, FindChild(s, invocation, call, IsStatus(AwaitingApproval)), Rerun(now));
      case _ =>
    }
  }

  lemma {:induction false} RunKeepsNames(s: State, events: seq<Timed>)
    requires NotesOk(s.notes)
    ensures NotesOk(Run(s, events).notes)
    decreases |events|
  {
    if events != [] {
      ReduceKeepsNames(s, events[0].event, events[0].now);
      RunKeepsNames(Reduce(s, events[0].event, events[0].now), events[1..]);
    }
  }

  // Whatever events arrive, in whatever order and however often, no two notes share an id.
  lemma NoteIdsAreUnique(events: seq<Timed>)
    ensures UniqueIds(Run(INITIAL, events).notes)
  {
    RunKeepsNames(INITIAL, events);
  }

  // ----- Notes stay, and statuses only advance -----

  function Rank(status: Status): nat {
    match status
    case Failed => 1
    case Cancelled => 1
    case Done => 2
    case _ => 0
  }

  ghost predicate Advances(from: Status, to: Status) {
    Rank(from) < Rank(to) || from == to || Rank(from) == Rank(to) == 0
  }

  ghost predicate NoteAdvances(a: Note, b: Note) {
    b.id == a.id && b.parentMessageId == a.parentMessageId && Advances(a.status, b.status)
  }

  ghost predicate NotesAdvance(a: seq<Note>, b: seq<Note>) {
    |a| <= |b| && forall i :: 0 <= i < |a| ==> NoteAdvances(a[i], b[i])
  }

  lemma ProgressAdvances(s: State, p: Progress, now: real)
    ensures NotesAdvance(s.notes, ApplyProgress(s, p, now).notes)
  {}

  lemma AdvanceOne(notes: seq<Note>, i: nat, note: Note)
    requires i < |notes| && NoteAdvances(notes[i], note)
    ensures NotesAdvance(notes, notes[i := note])
  {}

  lemma CompleteAdvances(s: State, content: Content, call: Option<Text>, now: real)
    ensures NotesAdvance(s.notes, CompleteNote(s, content, call, now).notes)
  {
    match content.progress {
      case Some(p) =>
        ProgressAdvances(s, p.(toolCallId := if p.toolCallId.Some?
            then p.toolCallId else call, startedAtMs := None), now);
      case None =>
        if content.marker.Some? {
          match FindLastIndex(s.notes, SameIdentity(content.marker.value)) {
            case Some(i) => if i < |s.notes| { AdvanceOne(s.notes, i, FreezeNote(s.notes[i], Done, now)); }
            case None =>
          }
        }
    }
  }

  lemma FailRunningAdvances(notes: seq<Note>, now: real)
    ensures NotesAdvance(notes, FailRunning(notes, now))
  {}

  lemma UpdateChildAdvances(s: State, target: Option<nat>, f: Note -> Note)
    requires KeepsNames(f)
    requires target.Some? && target.value < |s.notes| ==>
        Advances(s.notes[target.value].status, f(s.notes[target.value]).status)
    ensures NotesAdvance(s.notes, UpdateChild(s, target, f).notes)
  {}

  lemma ReduceAdvances(s: State, event: Event, now: real)
    requires !event.Reset? && !event.MessagesSnapshot?
    ensures NotesAdvance(s.notes, Reduce(s, event, now).notes)
  {
    match event {
      case SubAgentProgress(value) => if value.Some? { ProgressAdvances(s, value.value, now); }
      case ToolCallResult(content, call) => CompleteAdvances(s, content, call, now);
      case RunFinished => FailRunningAdvances(s.notes, now);
      case RunError => FailRunningAdvances(s.notes, now);
      case ChildTerminal(invocation, call, status) =>
        FindChildSpec(s, invocation, call, Unresolved);
        UpdateChildAdvances(s, FindChild(s, invocation, call, Unresolved), Terminate(status, now));
      case ChildAwaitingApproval(invocation, call) =>
        FindChildSpec(s, invocation, call, IsStatus(Running));
        UpdateChildAdvances(s, FindChild(s, invocation, call, IsStatus(Running)), Await(now));
      case ChildRunning(invocation, call) =>
        FindChildSpec(s, invocation, call, IsStatus(AwaitingApproval));
        UpdateChildAdvances(s, FindChild(s, invocation, call, IsStatus(AwaitingApproval)), Rerun(now));
      case _ =>
    }
  }

  lemma FindChildSpec(s: State, invocation: Option<string>, call: Option<string>, p: Status -> bool)
    ensures var i := FindChild(s, invocation, call, p); i.Some? ==> i.value < |s.notes| && p(s.notes[i.value].status)
  {
    if invocation.Some? && invocation.value != "" {
      FindIndexSpec(s.notes, ByInvocation(invocation.value, p));
    }
    if call.Some? && call.value != "" {
      FindIndexSpec(s.notes, ByToolCall(call.value, p));
    }
  }

  // Until a reset or a snapshot replaces the list, no note is removed, reordered or moved to
  // another parent, and no status falls back: live, then failed or cancelled, then done; failed and
  // cancelled never turn into each other, and done is final.
  lemma {:induction false} NotesOnlyAdvance(s: State, events: seq<Timed>)
    requires forall e :: e in events ==> !e.event.Reset? && !e.event.MessagesSnapshot?
    ensures NotesAdvance(s.notes, Run(s, events).notes)
    decreases |events|
  {
    if events != [] {
      var t := Reduce(s, events[0].event, events[0].now);
      ReduceAdvances(s, events[0].event, events[0].now);
      NotesOnlyAdvance(t, events[1..]);
      var u := Run(t, events[1..]);
      assert forall i :: 0 <= i < |s.notes| ==>
          NoteAdvances(s.notes[i], t.notes[i]) && NoteAdvances(t.notes[i], u.notes[i]);
    }
  }

  predicate IsOf(note: Note, m: Marker) {
    note.agent == m.agent && note.sessionId == m.sessionId
  }

  ghost predicate LatestOf(notes: seq<Note>, m: Marker, i: nat)
    requires i < |notes|
  {
    IsOf(notes[i], m) && forall j :: i < j < |notes| ==> !IsOf(notes[j], m)
  }

  // A result that only identifies its child ends the latest note of that child as done, and no other;
  // one that does not even do that changes nothing.
  lemma CompletionTakesTheLatest(s: State, content: Content, call: Option<Text>, now: real)
    requires content.progress.None?
    ensures var t := Reduce(s, ToolCallResult(content, call), now);
      && (content.marker.None? ==> t == s)
      && t == s.(notes := t.notes) && |t.notes| == |s.notes|
      && (content.marker.Some? ==>
            forall i :: 0 <= i < |s.notes| ==>
              if LatestOf(s.notes, content.marker.value, i) then Stopped(s.notes[i], t.notes[i], Done, now)
              else t.notes[i] == s.notes[i])
  {
    if content.marker.Some? {
      LatestIsFound(s.notes, content.marker.value);
    }
  }

  lemma LatestIsFound(notes: seq<Note>, m: Marker)
    ensures match FindLastIndex(notes, SameIdentity(m))
            case Some(i) => i < |notes| && forall j :: 0 <= j < |notes| ==> (LatestOf(notes, m, j) <==> j == i)
            case None => forall j :: 0 <= j < |notes| ==> !LatestOf(notes, m, j)
  {
    FindLastIndexSpec(notes, SameIdentity(m));
    assert forall note :: SameIdentity(m)(note) <==> IsOf(note, m);
  }

  // A result that carries a report is that report, for the call it names or else its own, without the
  // start time.
  lemma ResultReports(s: State, content: Content, call: Option<Text>, now: real)
    requires content.progress.Some?
    ensures var p := content.progress.value;
      Reduce(s, ToolCallResult(content, call), now)
      == if p.toolCallId.Some? then Reduce(s, SubAgentProgress(Some(p.(startedAtMs := None))), now)
         else Reduce(s, SubAgentProgress(Some(p.(toolCallId := call, startedAtMs := None))), now)
  {
    var p := content.progress.value;
    assert p.toolCallId.Some? ==> p.(startedAtMs := None) == p.(toolCallId := p.toolCallId, startedAtMs := None);
  }

  // ----- Replays -----

  ghost predicate SameButTime(a: Note, b: Note) {
    b == a.(updatedAtMs := b.updatedAtMs)
  }

  lemma FirstMatchIs(notes: seq<Note>, p: Progress, i: nat)
    requires i < |notes| && Matches(notes[i], p) && forall j :: 0 <= j < i ==> !Matches(notes[j], p)
    ensures FindIndex(notes, Matching(p)) == Some(i)
  {
    FindIndexSpec(notes, Matching(p));
  }

  lemma ReplayOnUpdated(s: State, i: nat, p: Progress, existing: Option<Note>, parent: Text, first: real, again: real)
    requires i < |s.notes| && s.notes[i] == NoteFromProgress(p, parent, existing, first)
    requires forall j :: 0 <= j < i ==> !Matches(s.notes[j], p)
    ensures var twice := ApplyProgress(s, p, again);
      || twice == s
      || (twice == s.(notes := twice.notes)
          && exists note :: SameButTime(s.notes[i], note) && twice.notes == s.notes[i := note])
  {
    FirstMatchIs(s.notes, p, i);
    var note := NoteFromProgress(p, parent, Some(s.notes[i]), again);
    assert SameButTime(s.notes[i], note);
    assert note == NoteFromProgress(p, s.notes[i].parentMessageId, Some(s.notes[i]), again);
  }

  // A progress report delivered twice has the effect of one, but for the time of the last update.
  lemma ReplayedProgressChangesNothing(s: State, p: Progress, first: real, again: real)
    ensures var once := ApplyProgress(s, p, first); var twice := ApplyProgress(once, p, again);
      && twice == once.(notes := twice.notes)
      && |twice.notes| == |once.notes|
      && forall i :: 0 <= i < |once.notes| ==> SameButTime(once.notes[i], twice.notes[i])
  {
    var once := ApplyProgress(s, p, first);
    FindIndexSpec(s.notes, Matching(p));
    match FindIndex(s.notes, Matching(p)) {
      case Some(i) =>
        if CanReplaceNote(s.notes[i], p) {
          ReplayOnUpdated(once, i, p, Some(s.notes[i]), s.notes[i].parentMessageId, first, again);
        }
      case None =>
        var parent := LaunchingParent(s, p.toolCallId);
        if parent.Some? {
          ReplayOnUpdated(once, |s.notes|, p, None, parent.value, first, again);
        }
    }
  }

  // ----- What single events do -----

  // `after` is `before` ended at `now`: a running note's elapsed time is counted up to now, from its
  // start if it has one, else from its last update; a clock set back counts nothing.
  ghost predicate Stopped(before: Note, after: Note, status: Status, now: real) {
    var elapsed, was := after.metrics.elapsedMs, before.metrics.elapsedMs;
    var started := before.startedAtMs.Some? && before.startedAtMs.value != 0.0;
    && after == before.(status := status, updatedAtMs := now, metrics := before.metrics.(elapsedMs := elapsed))
    && (before.status != Running ==> elapsed == was)
    && (before.status == Running && started ==> CountedFrom(before.startedAtMs.value, now, elapsed))
    && (before.status == Running && !started ==> CountedFrom(before.updatedAtMs, now, elapsed - was))
  }

  ghost predicate CountedFrom(start: real, now: real, elapsed: real) {
    (start <= now ==> start + elapsed == now) && (now <= start ==> elapsed == 0.0)
  }

  // The end of a run, good or bad, fails every note still live, touches no other, and forgets the
  // latest parent.
  lemma RunEndSettles(s: State, event: Event, now: real)
    requires event.RunFinished? || event.RunError?
    ensures var t := Reduce(s, event, now);
      && t.latestParentMessageId.None? && t.parentByToolCall == s.parentByToolCall && |t.notes| == |s.notes|
      && forall i :: 0 <= i < |s.notes| ==>
           if s.notes[i].status == Running || s.notes[i].status == AwaitingApproval
           then Stopped(s.notes[i], t.notes[i], Failed, now)
           else t.notes[i] == s.notes[i]
  {
    FailRunningSpec(s.notes, now);
  }

  ghost predicate HasInvocation(note: Note, invocation: Option<string>, live: set<Status>) {
    && invocation.Some? && invocation.value != "" && note.invocationId.Some?
    && note.invocationId.value == invocation.value && note.status in live
  }

  ghost predicate HasToolCall(note: Note, call: Option<string>, live: set<Status>) {
    && call.Some? && call.value != "" && note.toolCallId.Some?
    && note.toolCallId.value == call.value && note.status in live
  }

  ghost predicate InvocationIsLive(notes: seq<Note>, invocation: Option<string>, live: set<Status>) {
    exists j :: 0 <= j < |notes| && HasInvocation(notes[j], invocation, live)
  }

  // Note i is the one a child event means: the first live one of the invocation, or if there is none
  // the first live one of the tool call.
  ghost predicate Meant(
    notes: seq<Note>, invocation: Option<string>, call: Option<string>, live: set<Status>, i: nat)
    requires i < |notes|
  {
    if InvocationIsLive(notes, invocation, live) then
      HasInvocation(notes[i], invocation, live) && forall j :: 0 <= j < i ==> !HasInvocation(notes[j], invocation, live)
    else
      HasToolCall(notes[i], call, live) && forall j :: 0 <= j < i ==> !HasToolCall(notes[j], call, live)
  }

  ghost predicate NoneMeant(notes: seq<Note>, invocation: Option<string>, call: Option<string>, live: set<Status>) {
    forall i :: 0 <= i < |notes| ==> !Meant(notes, invocation, call, live, i)
  }

  lemma FindChildMeans(
    s: State, invocation: Option<string>, call: Option<string>, p: Status -> bool, live: set<Status>)
    requires forall status :: p(status) <==> status in live
    ensures match FindChild(s, invocation, call, p)
            case Some(i) => i < |s.notes| && Meant(s.notes, invocation, call, live, i)
            case None => NoneMeant(s.notes, invocation, call, live)
  {
    if invocation.Some? && invocation.value != "" {
      FindIndexSpec(s.notes, ByInvocation(invocation.value, p));
      assert forall note :: ByInvocation(invocation.value, p)(note) <==> HasInvocation(note, invocation, live);
    }
    if call.Some? && call.value != "" {
      FindIndexSpec(s.notes, ByToolCall(call.value, p));
      assert forall note :: ByToolCall(call.value, p)(note) <==> HasToolCall(note, call, live);
    }
  }

  // One note is changed, or none.
  ghost predicate OnlyNote(s: State, t: State, i: nat)
    requires i < |s.notes|
  {
    |t.notes| == |s.notes| && t == s.(notes := s.notes[i := t.notes[i]])
  }

  lemma OnlyOneMeant(
    notes: seq<Note>, invocation: Option<string>, call: Option<string>, live: set<Status>, i: nat, j: nat)
    requires i < |notes| && j < |notes|
    requires Meant(notes, invocation, call, live, i) && Meant(notes, invocation, call, live, j)
    ensures i == j
  {
    if i < j || j < i {}
  }

  ghost predicate Terminated(before: Note, after: Note, status: Option<string>, now: real) {
    && Stopped(before, after, after.status, now)
    && (after.status == Failed <==> status == Some("failed"))
    && (after.status == Cancelled <==> status == Some("cancelled"))
    && after.status in {Failed, Cancelled, Done}
  }

  lemma TerminateStops(note: Note, status: Option<string>, now: real)
    requires note.status in {Running, AwaitingApproval}
    ensures Terminated(note, Terminate(status, now)(note), status, now)
  {
    assert |"failed"| != |"cancelled"|;
  }

  ghost predicate Changed(s: State, t: State, i: nat, note: Note)
    requires i < |s.notes|
  {
    OnlyNote(s, t, i) && t.notes[i] == note
  }

  // A child event changes the note it means, which is live, and nothing without one.
  lemma ChildUpdates(
    s: State, invocation: Option<string>, call: Option<string>, p: Status -> bool, live: set<Status>, f: Note -> Note)
    requires forall status :: p(status) <==> status in live
    ensures var t := UpdateChild(s, FindChild(s, invocation, call, p), f);
      && (forall i :: 0 <= i < |s.notes| && Meant(s.notes, invocation, call, live, i) ==>
            s.notes[i].status in live && Changed(s, t, i, f(s.notes[i])))
      && (NoneMeant(s.notes, invocation, call, live) ==> t == s)
  {
    FindChildMeans(s, invocation, call, p, live);
    var found := FindChild(s, invocation, call, p);
    forall i | 0 <= i < |s.notes| && Meant(s.notes, invocation, call, live, i)
      ensures found == Some(i)
    {
      if found.Some? { OnlyOneMeant(s.notes, invocation, call, live, i, found.value); }
    }
  }

  // A child's end stops the live note it means, with the status it names: "failed", "cancelled", and
  // done for anything else.
  lemma ChildTerminalStops(
    s: State, invocation: Option<string>, call: Option<string>, status: Option<string>, now: real)
    ensures var t := Reduce(s, ChildTerminal(invocation, call, status), now);
      var live := {Running, AwaitingApproval};
      && (forall i :: 0 <= i < |s.notes| && Meant(s.notes, invocation, call, live, i) ==>
            OnlyNote(s, t, i) && Terminated(s.notes[i], t.notes[i], status, now))
      && (NoneMeant(s.notes, invocation, call, live) ==> t == s)
  {
    var live := {Running, AwaitingApproval};
    ChildUpdates(s, invocation, call, Unresolved, live, Terminate(status, now));
    forall i | 0 <= i < |s.notes| && Meant(s.notes, invocation, call, live, i)
      ensures Terminated(s.notes[i], Terminate(status, now)(s.notes[i]), status, now)
    {
      TerminateStops(s.notes[i], status, now);
    }
  }

  lemma AwaitStops(note: Note, now: real)
    requires note.status == Running
    ensures Stopped(note, Await(now)(note), AwaitingApproval, now)
  {}

  // A child that asks for approval pauses the running note it means, its elapsed time counted to now.
  lemma ChildAwaitingPauses(s: State, invocation: Option<string>, call: Option<string>, now: real)
    ensures var t := Reduce(s, ChildAwaitingApproval(invocation, call), now);
      && (forall i :: 0 <= i < |s.notes| && Meant(s.notes, invocation, call, {Running}, i) ==>
            OnlyNote(s, t, i) && Stopped(s.notes[i], t.notes[i], AwaitingApproval, now))
      && (NoneMeant(s.notes, invocation, call, {Running}) ==> t == s)
  {
    ChildUpdates(s, invocation, call, IsStatus(Running), {Running}, Await(now));
    forall i | 0 <= i < |s.notes| && Meant(s.notes, invocation, call, {Running}, i)
      ensures Stopped(s.notes[i], Await(now)(s.notes[i]), AwaitingApproval, now)
    {
      AwaitStops(s.notes[i], now);
    }
  }

  // A child that goes on sets the waiting note it means running again, and nothing else of it but its
  // update time.
  lemma ChildRunningResumes(s: State, invocation: Option<string>, call: Option<string>, now: real)
    ensures var t := Reduce(s, ChildRunning(invocation, call), now);
      && (forall i :: 0 <= i < |s.notes| && Meant(s.notes, invocation, call, {AwaitingApproval}, i) ==>
            OnlyNote(s, t, i) && t.notes[i] == s.notes[i].(status := Status.Running, updatedAtMs := now))
      && (NoneMeant(s.notes, invocation, call, {AwaitingApproval}) ==> t == s)
  {
    ChildUpdates(s, invocation, call, IsStatus(AwaitingApproval), {AwaitingApproval}, Rerun(now));
  }

  // ----- Live progress, report by report -----

  // Which note a report is about: the first of its invocation, or restored from a snapshot under its
  // tool call without an invocation of its own.
  ghost predicate About(note: Note, p: Progress) {
    || note.invocationId == Some(p.invocationId)
    || (note.invocationId.None? && p.toolCallId.Some? && note.toolCallId == p.toolCallId)
  }

  ghost predicate FirstAbout(notes: seq<Note>, p: Progress, i: nat)
    requires i < |notes|
  {
    About(notes[i], p) && forall j :: 0 <= j < i ==> !About(notes[j], p)
  }

  // The note says what the report says.
  ghost predicate Reports(note: Note, p: Progress, now: real) {
    && note.invocationId == Some(p.invocationId) && note.agent == p.agent && note.sessionId == p.sessionId
    && note.status == p.status && note.metrics == p.metrics && note.updatedAtMs == now
    && (p.title.Some? ==> note.title == p.title) && (p.toolCallId.Some? ==> note.toolCallId == p.toolCallId)
    && (p.startedAtMs.Some? ==> note.startedAtMs == p.startedAtMs)
  }

  // What the report leaves out, the note keeps; its place and name it keeps anyway.
  ghost predicate Keeps(before: Note, after: Note, p: Progress) {
    && after.id == before.id && after.parentMessageId == before.parentMessageId
    && (p.title.None? ==> after.title == before.title) && (p.toolCallId.None? ==> after.toolCallId == before.toolCallId)
    && (p.startedAtMs.None? ==> after.startedAtMs == before.startedAtMs)
  }

  // A report may replace a note that has not ended, turn a failed one done, or fill in a restored
  // note that ended the same way.
  ghost predicate MayReplace(note: Note, p: Progress) {
    || note.status !in {Done, Cancelled, Failed}
    || (note.status == Failed && p.status == Done)
    || (note.invocationId.None? && note.status == p.status)
  }

  lemma ProgressUpdates(s: State, p: Progress, now: real, i: nat)
    requires i < |s.notes| && FirstAbout(s.notes, p, i)
    ensures var t := Reduce(s, SubAgentProgress(Some(p)), now);
      if MayReplace(s.notes[i], p)
      then OnlyNote(s, t, i) && Reports(t.notes[i], p, now) && Keeps(s.notes[i], t.notes[i], p)
      else t == s
  {
    FindIndexSpec(s.notes, Matching(p));
    FirstMatchIs(s.notes, p, i);
  }

  // A report about no note starts one at the end, under the message that launched its call, or else
  // the latest to have started one; without either it is dropped.
  lemma ProgressStarts(s: State, p: Progress, now: real)
    requires forall i :: 0 <= i < |s.notes| ==> !About(s.notes[i], p)
    ensures var t := Reduce(s, SubAgentProgress(Some(p)), now);
      var known := p.toolCallId.Some? && p.toolCallId.value in s.parentByToolCall;
      if !known && s.latestParentMessageId.None? then t == s
      else
        && |t.notes| == |s.notes| + 1 && t == s.(notes := s.notes + [t.notes[|s.notes|]])
        && var note := t.notes[|s.notes|];
           Reports(note, p, now) && note.id == "live:" + p.invocationId
           && note.parentMessageId
              == (if known then s.parentByToolCall[p.toolCallId.value] else s.latestParentMessageId.value)
           && note.title == p.title && note.toolCallId == p.toolCallId
           && (p.startedAtMs.None? ==> note.startedAtMs == Some(now - p.metrics.elapsedMs))
  {
    FindIndexSpec(s.notes, Matching(p));
  }

  // ----- The latest parent -----

  // The message of the last tool call started since a run began or ended, or the list was replaced.
  ghost function LastStarted(events: seq<Timed>): Option<Text> {
    if events == [] then None
    else
      match events[|events| - 1].event
      case Reset | RunStarted | RunFinished | RunError | MessagesSnapshot(_) => None
      case ToolCallStart(parent) => if parent.Some? then parent else LastStarted(events[..|events| - 1])
      case _ => LastStarted(events[..|events| - 1])
  }

  lemma {:induction false} RunSplit(s: State, events: seq<Timed>)
    requires events != []
    ensures var last := events[|events| - 1];
      Run(s, events) == Reduce(Run(s, events[..|events| - 1]), last.event, last.now)
    decreases |events|
  {
    if |events| > 1 {
      var t := Reduce(s, events[0].event, events[0].now);
      RunSplit(t, events[1..]);
      assert events[1..][..|events| - 2] == events[..|events| - 1][1..];
    }
  }

  lemma ParentAfter(s: State, event: Event, now: real)
    ensures Reduce(s, event, now).latestParentMessageId ==
              match event
              case Reset | RunStarted | RunFinished | RunError | MessagesSnapshot(_) => None
              case ToolCallStart(parent) => if parent.Some? then parent else s.latestParentMessageId
              case _ => s.latestParentMessageId
  {}

  lemma {:induction false} LatestParentIsTheLastStarted(events: seq<Timed>)
    ensures Run(INITIAL, events).latestParentMessageId == LastStarted(events)
  {
    if events != [] {
      var before := events[..|events| - 1];
      LatestParentIsTheLastStarted(before);
      RunSplit(INITIAL, events);
      ParentAfter(Run(INITIAL, before), events[|events| - 1].event, events[|events| - 1].now);
    }
  }

  // ----- Restored notes -----

  // What a tool message restores: the child's last report if its result holds one, else a finished
  // note for a child it names, or a failed one for a child named in a partial result.
  ghost predicate Restores(m: Message, parent: Text, now: real, note: Note) {
    && m.ToolMessage? && m.toolCallId.Some? && note.toolCallId == m.toolCallId && note.parentMessageId == parent
    && note.id == "snapshot:" + parent + ":" + m.toolCallId.value
    && note.updatedAtMs == now && note.startedAtMs.None?
    && (m.content.progress.Some? ==>
          var p := m.content.progress.value;
          && note.invocationId == Some(p.invocationId) && note.agent == p.agent && note.sessionId == p.sessionId
          && note.title == p.title && note.status == p.status && note.metrics == p.metrics)
    && (m.content.progress.None? ==>
          && note.invocationId.None? && note.title.None? && note.metrics == Metrics(0.0, 0.0, 0.0, 0.0, 0.0)
          && (m.content.marker.Some? ==> note.status == Done && Names(note, m.content.marker.value))
          && (m.content.marker.None? ==>
                m.content.partialMarker.Some? && note.status == Failed && Names(note, m.content.partialMarker.value)))
  }

  ghost predicate Names(note: Note, marker: Marker) {
    note.agent == marker.agent && note.sessionId == marker.sessionId
  }

  predicate HasChild(content: Content) {
    content.progress.Some? || content.marker.Some? || content.partialMarker.Some?
  }

  lemma SnapshotNoteSpec(m: Message, parents: map<Text, Text>, now: real)
    ensures SnapshotNote(m, parents, now).Some?
            <==> m.ToolMessage? && m.toolCallId.Some? && m.toolCallId.value in parents && HasChild(m.content)
    ensures SnapshotNote(m, parents, now).Some? ==>
              Restores(m, parents[m.toolCallId.value], now, SnapshotNote(m, parents, now).value)
  {}

  // `note` is what the last of the messages that restores a note of its id restores.
  ghost predicate LastRestored(messages: seq<Message>, parents: map<Text, Text>, now: real, note: Note) {
    exists k :: 0 <= k < |messages| && SnapshotNote(messages[k], parents, now) == Some(note)
      && forall j :: k < j < |messages| ==> SnapshotNote(messages[j], parents, now).None?
                                            || SnapshotNote(messages[j], parents, now).value.id != note.id
  }

  lemma {:induction false} PutByIdHolds(notes: seq<Note>, note: Note, other: Note)
    requires UniqueIds(notes)
    ensures other in PutById(notes, note) <==> other == note || (other in notes && other.id != note.id)
  {
    if notes != [] {
      assert forall i :: 1 <= i < |notes| ==> notes[1..][i - 1] == notes[i];
      PutByIdHolds(notes[1..], note, other);
    }
  }

  lemma {:induction false} SnapshotNotesSpec(
    messages: seq<Message>, parents: map<Text, Text>, now: real, notes: seq<Note>, note: Note)
    requires UniqueIds(notes)
    ensures var r := NotesFromSnapshot(messages, parents, now, notes);
      && UniqueIds(r)
      && (note in r <==> LastRestored(messages, parents, now, note)
                         || (note in notes && forall k :: 0 <= k < |messages| ==>
                               SnapshotNote(messages[k], parents, now).None?
                               || SnapshotNote(messages[k], parents, now).value.id != note.id))
      && |notes| <= |r| && forall i :: 0 <= i < |notes| ==> r[i].id == notes[i].id
    decreases |messages|
  {
    if messages != [] {
      var first := SnapshotNote(messages[0], parents, now);
      var next := if first.Some? then PutById(notes, first.value) else notes;
      if first.Some? {
        PutByIdHolds(notes, first.value, note);
        PutByIdPlaces(notes, first.value);
      }
      SnapshotNotesSpec(messages[1..], parents, now, next, note);
      LastRestoredTail(messages, parents, now, note);
      RestoredLater(messages, parents, now, note);
    }
  }

  lemma {:induction false} PutByIdPlaces(notes: seq<Note>, note: Note)
    ensures var r := PutById(notes, note);
      && |notes| <= |r| <= |notes| + 1
      && (forall i :: 0 <= i < |notes| ==> r[i].id == notes[i].id)
      && (|r| > |notes| ==> r[|notes|] == note && forall i :: 0 <= i < |notes| ==> notes[i].id != note.id)
  {
    if notes != [] {
      PutByIdPlaces(notes[1..], note);
    }
  }

  ghost predicate RestoredFrom(messages: seq<Message>, parents: map<Text, Text>, now: real, id: string) {
    exists k :: 0 <= k < |messages| && SnapshotNote(messages[k], parents, now).Some?
                && SnapshotNote(messages[k], parents, now).value.id == id
  }

  lemma RestoredLater(messages: seq<Message>, parents: map<Text, Text>, now: real, note: Note)
    requires messages != []
    ensures RestoredFrom(messages, parents, now, note.id)
            <==> (SnapshotNote(messages[0], parents, now).Some?
                  && SnapshotNote(messages[0], parents, now).value.id == note.id)
                 || RestoredFrom(messages[1..], parents, now, note.id)
  {
    forall k | 0 <= k < |messages[1..]|
      ensures messages[1..][k] == messages[k + 1]
    {}
    if k :| 0 <= k < |messages| && SnapshotNote(messages[k], parents, now).Some?
            && SnapshotNote(messages[k], parents, now).value.id == note.id {
      if k > 0 { assert messages[1..][k - 1] == messages[k]; }
    }
  }

  lemma LastRestoredTail(messages: seq<Message>, parents: map<Text, Text>, now: real, note: Note)
    requires messages != []
    ensures LastRestored(messages, parents, now, note)
            <==> LastRestored(messages[1..], parents, now, note)
                 || (SnapshotNote(messages[0], parents, now) == Some(note)
                     && !RestoredFrom(messages[1..], parents, now, note.id))
  {
    var rest := messages[1..];
    forall k | 0 <= k < |rest|
      ensures rest[k] == messages[k + 1]
    {}
    if LastRestored(rest, parents, now, note) {
      var k :| 0 <= k < |rest| && SnapshotNote(rest[k], parents, now) == Some(note)
        && forall j :: k < j < |rest| ==> SnapshotNote(rest[j], parents, now).None?
                                          || SnapshotNote(rest[j], parents, now).value.id != note.id;
      assert messages[k + 1] == rest[k];
      forall j | k + 1 < j < |messages|
        ensures SnapshotNote(messages[j], parents, now).None?
             || SnapshotNote(messages[j], parents, now).value.id != note.id
      {
        assert messages[j] == rest[j - 1];
      }
    }
    if LastRestored(messages, parents, now, note) {
      var k :| 0 <= k < |messages| && SnapshotNote(messages[k], parents, now) == Some(note)
        && forall j :: k < j < |messages| ==> SnapshotNote(messages[j], parents, now).None?
                                              || SnapshotNote(messages[j], parents, now).value.id != note.id;
      if k > 0 {
        assert rest[k - 1] == messages[k];
      }
    }
  }

  // An assistant message that launched the call.
  predicate Launches(m: Message, call: Text) {
    m.AssistantMessage? && m.id.Some? && Some(call) in m.toolCalls
  }

  lemma {:induction false} ParentsOfCallsSpec(
    parent: Text, calls: seq<Option<Text>>, parents: map<Text, Text>, call: Text)
    ensures var r := ParentsOfCalls(parent, calls, parents);
      && (call in r <==> Some(call) in calls || call in parents)
      && (call in r ==> r[call] == if Some(call) in calls then parent else parents[call])
    decreases |calls|
  {
    if calls != [] {
      var next := if calls[0].Some? then parents[calls[0].value := parent] else parents;
      ParentsOfCallsSpec(parent, calls[1..], next, call);
      assert calls == [calls[0]] + calls[1..];
    }
  }

  predicate LastLaunches(messages: seq<Message>, k: nat, call: Text)
    requires k < |messages|
  {
    Launches(messages[k], call) && forall j :: k < j < |messages| ==> !Launches(messages[j], call)
  }

  // Each launched call's parent is the last message that launched it.
  lemma {:induction false} ParentsSpec(messages: seq<Message>, parents: map<Text, Text>, call: Text)
    ensures var r := Parents(messages, parents);
      && (forall k :: 0 <= k < |messages| && LastLaunches(messages, k, call) ==>
            call in r && r[call] == messages[k].id.value)
      && ((forall k :: 0 <= k < |messages| ==> !Launches(messages[k], call)) ==>
            (call in r <==> call in parents) && (call in parents ==> r[call] == parents[call]))
    decreases |messages|
  {
    if messages != [] {
      var m, rest := messages[0], messages[1..];
      var next :=
        if m.AssistantMessage? && m.id.Some? then ParentsOfCalls(m.id.value, m.toolCalls, parents) else parents;
      if m.AssistantMessage? && m.id.Some? { ParentsOfCallsSpec(m.id.value, m.toolCalls, parents, call); }
      ParentsSpec(rest, next, call);
      forall k | 0 <= k < |rest|
        ensures rest[k] == messages[k + 1]
      {}
      forall k | 0 <= k < |messages| && LastLaunches(messages, k, call)
        ensures call in Parents(messages, parents) && Parents(messages, parents)[call] == messages[k].id.value
      {
        if k > 0 { assert rest[k - 1] == messages[k]; }
        forall j | 0 <= j < |rest| && j + 1 > k
          ensures !Launches(rest[j], call)
        {
          assert rest[j] == messages[j + 1];
        }
      }
    }
  }

  // A snapshot replaces the whole state: the notes are what its tool messages restore, the last one
  // for each id, each in a launched call's message; the latest parent is forgotten.
  lemma SnapshotReplaces(s: State, messages: seq<Message>, now: real, note: Note)
    ensures var t := Reduce(s, MessagesSnapshot(messages), now);
      && t.latestParentMessageId.None? && t.parentByToolCall == Parents(messages, map[])
      && (note in t.notes <==> LastRestored(messages, t.parentByToolCall, now, note))
  {
    SnapshotNotesSpec(messages, Parents(messages, map[]), now, [], note);
  }
}
