// The session list of web/src/useSessionDiscovery.ts: keyset pages, a periodic refresh of page one
// and "load more", completing in any order against merge rules and a cursor guard.
//
// `State` and `Next` say what one event does; class `SessionList` performs the events on the hook's
// refs and state variables and is proved to do exactly that. A cursor is the position of the next
// unlisted session, as the server (crates/harnx-serve/src/session_pagination.rs) hands it out.
module SessionPaging {
  import opened Options

  type Id = string  // "" is JavaScript's falsy id: nothing selected

  // `details` is everything the server says of a session; a placeholder has only its id.
  datatype Session = Session(id: Id, details: Option<int>, unread: Option<bool>)

  function Placeholder(id: Id): Session {
    Session(id, None, None)
  }

  // An older server answers with the bare list instead of pages.
  datatype Server = Server(sessions: seq<Session>, pageSize: nat, paged: bool) {
    ghost predicate Valid() {
      && pageSize > 0
      && NoDup(sessions)
      && forall s :: s in sessions ==> s.id != "" && s.details.Some?
    }
  }

  datatype Response = Response(sessions: seq<Session>, next: Option<nat>)

  function Page(server: Server, from: nat): Response {
    if !server.paged then Response(server.sessions, None)
    else if from + server.pageSize < |server.sessions|
    then Response(server.sessions[from..from + server.pageSize], Some(from + server.pageSize))
    else Response(if from <= |server.sessions| then server.sessions[from..] else [], None)
  }

  function Ids(list: seq<Session>): set<Id> {
    set s | s in list :: s.id
  }

  function SelectedIds(selected: Id): set<Id> {
    if selected == "" then {} else {selected}
  }

  ghost predicate NoDup(list: seq<Session>) {
    forall i, j :: 0 <= i < j < |list| ==> list[i].id != list[j].id
  }

  function Find(list: seq<Session>, id: Id): Option<Session> {
    if list == [] then None
    else if list[0].id == id then Some(list[0])
    else Find(list[1..], id)
  }

  function Except(list: seq<Session>, ids: set<Id>): seq<Session> {
    if list == [] then []
    else (if list[0].id in ids then [] else [list[0]]) + Except(list[1..], ids)
  }

  // The closing step of all three merges: the selected session stays, with the data `prev` had.
  function KeepSelected(merged: seq<Session>, prev: seq<Session>, selected: Id): seq<Session> {
    if selected == "" || selected in Ids(merged) then merged
    else
      var existing := Find(prev, selected);
      merged + [if existing.Some? then existing.value else Placeholder(selected)]
  }

  function MergePageOne(firstPage: seq<Session>, prev: seq<Session>, selected: Id): seq<Session> {
    KeepSelected(firstPage, prev, selected)
  }

  function MergeMultiPage(firstPage: seq<Session>, prev: seq<Session>, selected: Id): seq<Session> {
    KeepSelected(firstPage + Except(prev, Ids(firstPage)), prev, selected)
  }

  function AppendPage(prev: seq<Session>, incoming: seq<Session>, selected: Id): seq<Session> {
    var others := Except(prev, {selected});
    KeepSelected(others + Except(incoming, Ids(others)), prev, selected)
  }

  function IncludeSelected(prev: seq<Session>, selected: Id): seq<Session> {
    if selected == "" || selected in Ids(prev) then prev else prev + [Placeholder(selected)]
  }

  function MarkUnread(list: seq<Session>, id: Id, unread: bool): seq<Session> {
    if list == [] then []
    else [if list[0].id == id then list[0].(unread := Some(unread)) else list[0]] + MarkUnread(list[1..], id, unread)
  }

  predicate AdoptsPageOneCursor(extraPagesLoaded: bool, loadMoreCompleted: bool) {
    !extraPagesLoaded && !loadMoreCompleted
  }

  function MergeRefreshed(firstPage: seq<Session>, prev: seq<Session>, selected: Id, extra: bool, completed: bool)
    : seq<Session>
  {
    if !extra && !completed then MergePageOne(firstPage, prev, selected) else MergeMultiPage(firstPage, prev, selected)
  }

  datatype Event =
    | SwitchAgent(agent: string)
    | Select(id: Id)
    | SetUnread(id: Id, unread: bool)
    | StartRefresh
    | RefreshArrives(request: nat)
    | RefreshFails(request: nat)
    | StartLoadMore
    | LoadMoreArrives
    | LoadMoreFails

  // `refreshes` maps each request still in flight to the load-more version at its start; `loading`
  // is the cursor of the load-more in flight.
  datatype State = State(
    agent: string, selected: Id, sessions: seq<Session>, cursor: Option<nat>, loaded: bool,
    extra: bool, version: nat, isLoadingMore: bool, loading: Option<nat>,
    request: nat, refreshes: map<nat, nat>)

  function Mounted(agent: string, selected: Id): State {
    State(agent, selected, IncludeSelected([], selected), None, false, false, 0, false, None, 0, map[])
  }

  // `resetPagination` and `resetListState`; the in-flight load-more is aborted.
  function Reset(s: State): State {
    s.(sessions := [], loaded := false, cursor := None, extra := false, version := 0,
       isLoadingMore := false, loading := None)
  }

  function AfterRefresh(s: State, page: Response, versionAtStart: nat): State {
    var completed := s.version != versionAtStart;
    s.(cursor := if AdoptsPageOneCursor(s.extra, completed) then page.next else s.cursor,
       sessions := MergeRefreshed(page.sessions, s.sessions, s.selected, s.extra, completed),
       loaded := true)
  }

  function AfterLoadMore(s: State, page: Response): State {
    s.(extra := true, version := s.version + 1, cursor := page.next,
       sessions := AppendPage(s.sessions, page.sessions, s.selected),
       isLoadingMore := false, loading := None)
  }

  function Next(servers: string -> Server, s: State, event: Event): State {
    match event
    // A switch aborts what is in flight; the next refresh starts separately.
    case SwitchAgent(agent) => if agent == s.agent then s else Reset(s.(agent := agent, refreshes := map[]))
    // The effect that includes the selected session runs when the selection changes.
    case Select(id) =>
      if id == s.selected then s else s.(selected := id, sessions := IncludeSelected(s.sessions, id))
    case SetUnread(id, unread) => s.(sessions := MarkUnread(s.sessions, id, unread))
    case StartRefresh =>
      var s1 := s.(request := s.request + 1);
      if s.agent == "" then Reset(s1) else s1.(refreshes := s.refreshes[s1.request := s.version])
    case RefreshArrives(request) =>
      if request !in s.refreshes then s
      else
        var s1 := s.(refreshes := s.refreshes - {request});
        if request != s.request then s1 else AfterRefresh(s1, Page(servers(s.agent), 0), s.refreshes[request])
    case RefreshFails(request) => s.(refreshes := s.refreshes - {request})
    case StartLoadMore =>
      if s.agent == "" || s.cursor.None? || s.isLoadingMore then s
      else s.(isLoadingMore := true, loading := s.cursor)
    case LoadMoreArrives =>
      if s.loading.None? then s else AfterLoadMore(s, Page(servers(s.agent), s.loading.value))
    case LoadMoreFails => if s.loading.None? then s else s.(isLoadingMore := false, loading := None)
  }

  function Run(servers: string -> Server, s: State, events: seq<Event>): State
    decreases |events|
  {
    if events == [] then s else Run(servers, Next(servers, s, events[0]), events[1..])
  }

  ghost predicate Covers(list: seq<Session>, server: Server, upTo: nat)
    requires upTo <= |server.sessions|
  {
    forall i :: 0 <= i < upTo ==> server.sessions[i].id in Ids(list)
  }

  ghost predicate CursorOk(server: Server, s: State) {
    && (s.cursor.Some? ==> 0 < s.cursor.value < |server.sessions| && Covers(s.sessions, server, s.cursor.value))
    && (s.loaded && s.cursor.None? ==> Covers(s.sessions, server, |server.sessions|))
    && (s.loaded && !s.extra ==> s.cursor == Page(server, 0).next)
    && (!s.loaded ==> s.cursor.None? && !s.extra)
    && (s.loading.Some? ==> s.cursor == s.loading)
    && (s.isLoadingMore <==> s.loading.Some?)
  }

  ghost predicate Inv(server: Server, s: State) {
    && NoDup(s.sessions)
    && CursorOk(server, s)
    && (s.selected != "" && (s.sessions != [] || s.loaded) ==> s.selected in Ids(s.sessions))
    && (!s.extra ==> s.version == 0)
    && (s.agent == "" ==> !s.loaded && s.refreshes == map[])
    && forall r :: r in s.refreshes ==> r <= s.request
  }

  ghost predicate AllValid(servers: string -> Server) {
    forall agent :: servers(agent).Valid()
  }

  // ----- The list operations -----

  lemma {:induction false} ExceptSpec(list: seq<Session>, ids: set<Id>)
    ensures forall s :: s in Except(list, ids) <==> s in list && s.id !in ids
    ensures Ids(Except(list, ids)) == Ids(list) - ids
    ensures NoDup(list) ==> NoDup(Except(list, ids))
  {
    if list != [] {
      ExceptSpec(list[1..], ids);
      assert forall s :: s in list <==> s == list[0] || s in list[1..];
      if NoDup(list) { ExceptNoDup(list, ids); }
    }
  }

  lemma ExceptNoDup(list: seq<Session>, ids: set<Id>)
    requires list != [] && NoDup(list)
    requires forall s :: s in Except(list[1..], ids) ==> s in list[1..]
    requires NoDup(list[1..]) ==> NoDup(Except(list[1..], ids))
    ensures NoDup(Except(list, ids))
  {
    var rest := Except(list[1..], ids);
    forall s | s in list[1..]
      ensures s.id != list[0].id
    {
      var i :| 0 <= i < |list[1..]| && list[1..][i] == s;
      assert list[i + 1] == s;
    }
    if list[0].id !in ids { ConcatNoDup([list[0]], rest); }
  }

  lemma ConcatNoDup(a: seq<Session>, b: seq<Session>)
    requires NoDup(a) && NoDup(b) && Ids(a) !! Ids(b)
    ensures NoDup(a + b) && Ids(a + b) == Ids(a) + Ids(b)
  {
    var c := a + b;
    forall i, j | 0 <= i < j < |c|
      ensures c[i].id != c[j].id
    {
      if i < |a| && j >= |a| {
        assert a[i].id in Ids(a) && b[j - |a|].id in Ids(b);
      }
    }
    IdsConcat(a, b);
  }

  lemma IdsConcat(a: seq<Session>, b: seq<Session>)
    ensures Ids(a + b) == Ids(a) + Ids(b)
  {}

  lemma {:induction false} FindSpec(list: seq<Session>, id: Id)
    ensures Find(list, id).Some? <==> id in Ids(list)
    ensures Find(list, id).Some? ==> Find(list, id).value in list && Find(list, id).value.id == id
  {
    if list != [] {
      FindSpec(list[1..], id);
      assert forall s :: s in list <==> s == list[0] || s in list[1..];
    }
  }

  lemma KeepSelectedSpec(merged: seq<Session>, prev: seq<Session>, selected: Id)
    requires NoDup(merged)
    ensures var r := KeepSelected(merged, prev, selected);
      && NoDup(r)
      && Ids(r) == Ids(merged) + SelectedIds(selected)
      && (forall s :: s in r ==> s in merged || (s.id == selected && (s in prev || selected !in Ids(prev))))
  {
    FindSpec(prev, selected);
    if !(selected == "" || selected in Ids(merged)) {
      var existing := Find(prev, selected);
      var last := if existing.Some? then existing.value else Placeholder(selected);
      assert Ids([last]) == {selected} by { assert forall s :: s in [last] <==> s == last; }
      ConcatNoDup(merged, [last]);
    }
  }

  lemma MultiPageSpec(firstPage: seq<Session>, prev: seq<Session>, selected: Id)
    requires NoDup(firstPage) && NoDup(prev)
    ensures var r := MergeMultiPage(firstPage, prev, selected);
      NoDup(r) && Ids(r) == Ids(firstPage) + Ids(prev) + SelectedIds(selected)
  {
    ExceptSpec(prev, Ids(firstPage));
    ConcatNoDup(firstPage, Except(prev, Ids(firstPage)));
    KeepSelectedSpec(firstPage + Except(prev, Ids(firstPage)), prev, selected);
  }

  // What appending a page does: nothing listed is lost (an empty id aside), everything incoming is
  // listed.
  lemma AppendSpec(prev: seq<Session>, incoming: seq<Session>, selected: Id)
    requires NoDup(prev) && NoDup(incoming)
    ensures var r := AppendPage(prev, incoming, selected);
      && NoDup(r)
      && Ids(r) == (Ids(prev) - {selected}) + Ids(incoming) + SelectedIds(selected)
  {
    var others := Except(prev, {selected});
    ExceptSpec(prev, {selected});
    ExceptSpec(incoming, Ids(others));
    ConcatNoDup(others, Except(incoming, Ids(others)));
    KeepSelectedSpec(others + Except(incoming, Ids(others)), prev, selected);
  }

  // A session that arrives on a later page replaces what was listed exactly when nothing but the
  // selected session was listed under its id: the selected session's placeholder is filled in by its
  // page, one left behind by an earlier selection is not.
  lemma AppendHydratesOnlyTheSelected(prev: seq<Session>, incoming: seq<Session>, selected: Id, s: Session)
    requires NoDup(prev) && NoDup(incoming) && s in incoming && s !in prev
    ensures s in AppendPage(prev, incoming, selected) <==> s.id == selected || s.id !in Ids(prev)
  {
    var others := Except(prev, {selected});
    var added := Except(incoming, Ids(others));
    ExceptSpec(prev, {selected});
    ExceptSpec(incoming, Ids(others));
    ConcatNoDup(others, added);
    KeepSelectedSpec(others + added, prev, selected);
    if s in added {
      assert s in others + added;
    }
    if s.id !in Ids(prev) - {selected} {
      assert s in added;
    }
  }

  lemma {:induction false} MarkUnreadSpec(list: seq<Session>, id: Id, unread: bool)
    ensures var r := MarkUnread(list, id, unread);
      && |r| == |list|
      && forall i :: 0 <= i < |r| ==> r[i] == if list[i].id == id then list[i].(unread := Some(unread)) else list[i]
    ensures Ids(MarkUnread(list, id, unread)) == Ids(list)
  {
    var r := MarkUnread(list, id, unread);
    if list != [] {
      MarkUnreadSpec(list[1..], id, unread);
    }
    SameIds(list, r);
  }

  lemma SameIds(a: seq<Session>, b: seq<Session>)
    requires |a| == |b| && forall i :: 0 <= i < |a| ==> b[i].id == a[i].id
    ensures Ids(a) == Ids(b)
  {}

  lemma PageSpec(server: Server, from: nat)
    requires server.Valid() && from <= |server.sessions|
    ensures var p := Page(server, from);
      && NoDup(p.sessions)
      && (p.next.Some? ==> from < p.next.value < |server.sessions| && p.next.value == from + server.pageSize)
      && var end := if p.next.Some? then p.next.value else |server.sessions|;
         forall i :: from <= i < end ==> server.sessions[i].id in Ids(p.sessions)
  {}

  // ----- Every event keeps the invariant -----

  lemma RefreshKeepsInv(server: Server, s: State, versionAtStart: nat)
    requires server.Valid() && Inv(server, s) && s.agent != "" && versionAtStart <= s.version
    ensures Inv(server, AfterRefresh(s, Page(server, 0), versionAtStart))
  {
    PageSpec(server, 0);
    var page := Page(server, 0);
    KeepSelectedSpec(page.sessions, s.sessions, s.selected);
    MultiPageSpec(page.sessions, s.sessions, s.selected);
  }

  lemma LoadMoreKeepsInv(server: Server, s: State)
    requires server.Valid() && Inv(server, s) && s.loading.Some?
    ensures Inv(server, AfterLoadMore(s, Page(server, s.loading.value)))
  {
    var from := s.loading.value;
    PageSpec(server, from);
    var page := Page(server, from);
    AppendSpec(s.sessions, page.sessions, s.selected);
    var t := AfterLoadMore(s, page);
    var end := if page.next.Some? then page.next.value else |server.sessions|;
    forall i | 0 <= i < end
      ensures server.sessions[i].id in Ids(t.sessions)
    {
      assert server.sessions[i] in server.sessions;
      assert server.sessions[i].id != "";
      if i < from { assert server.sessions[i].id in Ids(s.sessions); }
    }
  }

  // A refresh in flight started at a version no later than the current one.
  ghost predicate VersionsOk(s: State) {
    forall r :: r in s.refreshes ==> s.refreshes[r] <= s.version
  }

  lemma SelectAddsOne(list: seq<Session>, id: Id)
    requires NoDup(list) && id !in Ids(list)
    ensures NoDup(list + [Placeholder(id)]) && Ids(list + [Placeholder(id)]) == Ids(list) + {id}
  {}

  // Relisting the same ids is always safe.
  lemma RelistKeepsInv(server: Server, s: State, list: seq<Session>)
    requires Inv(server, s) && NoDup(list) && |list| == |s.sessions| && Ids(list) == Ids(s.sessions)
    ensures Inv(server, s.(sessions := list))
  {}

  lemma SelectKeepsInv(server: Server, s: State, id: Id)
    requires Inv(server, s)
    ensures Inv(server, s.(selected := id, sessions := IncludeSelected(s.sessions, id)))
  {}

  lemma RefreshArrivalKeepsInv(server: Server, s: State, request: nat)
    requires server.Valid() && Inv(server, s) && VersionsOk(s) && request in s.refreshes
    ensures Inv(server, s.(refreshes := s.refreshes - {request}))
    ensures Inv(server, AfterRefresh(s.(refreshes := s.refreshes - {request}), Page(server, 0), s.refreshes[request]))
  {
    RefreshKeepsInv(server, s.(refreshes := s.refreshes - {request}), s.refreshes[request]);
  }

  lemma ResetKeepsInv(server: Server, s: State)
    requires s.agent == "" ==> s.refreshes == map[]
    requires forall r :: r in s.refreshes ==> r <= s.request
    ensures Inv(server, Reset(s))
  {}

  lemma StartKeepsInv(server: Server, s: State)
    requires Inv(server, s) && VersionsOk(s)
    ensures var s1 := s.(request := s.request + 1);
      Inv(server, if s.agent == "" then Reset(s1) else s1.(refreshes := s.refreshes[s1.request := s.version]))
  {}

  lemma UnreadKeepsInv(server: Server, s: State, id: Id, unread: bool)
    requires Inv(server, s)
    ensures Inv(server, s.(sessions := MarkUnread(s.sessions, id, unread)))
  {
    MarkUnreadSpec(s.sessions, id, unread);
    RelistKeepsInv(server, s, MarkUnread(s.sessions, id, unread));
  }

  // Starting or ending a request alone leaves the list as complete as it was.
  lemma LoadingKeepsInv(server: Server, s: State, busy: bool, loading: Option<nat>)
    requires Inv(server, s) && (loading.Some? ==> loading == s.cursor) && (busy <==> loading.Some?)
    ensures Inv(server, s.(isLoadingMore := busy, loading := loading))
  {}

  lemma FailureKeepsInv(server: Server, s: State, request: nat)
    requires Inv(server, s)
    ensures Inv(server, s.(refreshes := s.refreshes - {request}))
  {}

  lemma ArrivalKeepsInv(servers: string -> Server, s: State, request: nat)
    requires AllValid(servers) && Inv(servers(s.agent), s) && VersionsOk(s)
    ensures Next(servers, s, RefreshArrives(request)).agent == s.agent
    ensures Inv(servers(s.agent), Next(servers, s, RefreshArrives(request)))
  {
    if request in s.refreshes { RefreshArrivalKeepsInv(servers(s.agent), s, request); }
  }

  lemma SwitchKeepsInv(servers: string -> Server, s: State, agent: string)
    requires Inv(servers(s.agent), s)
    ensures Inv(servers(agent), Next(servers, s, SwitchAgent(agent)))
  {
    if agent != s.agent { ResetKeepsInv(servers(agent), s.(agent := agent, refreshes := map[])); }
  }

  lemma NextKeepsInv(servers: string -> Server, s: State, event: Event)
    requires AllValid(servers) && Inv(servers(s.agent), s) && VersionsOk(s)
    ensures Inv(servers(Next(servers, s, event).agent), Next(servers, s, event))
  {
    match event {
      case SwitchAgent(agent) => SwitchKeepsInv(servers, s, agent);
      case Select(id) => SelectKeepsInv(servers(s.agent), s, id);
      case SetUnread(id, unread) => UnreadKeepsInv(servers(s.agent), s, id, unread);
      case StartRefresh => StartKeepsInv(servers(s.agent), s);
      case RefreshArrives(request) => ArrivalKeepsInv(servers, s, request);
      case RefreshFails(request) => FailureKeepsInv(servers(s.agent), s, request);
      case StartLoadMore => if s.cursor.Some? { LoadingKeepsInv(servers(s.agent), s, true, s.cursor); }
      case LoadMoreArrives => if s.loading.Some? { LoadMoreKeepsInv(servers(s.agent), s); }
      case LoadMoreFails => LoadingKeepsInv(servers(s.agent), s, false, None);
    }
  }

  lemma NextKeepsVersions(servers: string -> Server, s: State, event: Event)
    requires VersionsOk(s) && (s.agent == "" ==> s.refreshes == map[])
    ensures VersionsOk(Next(servers, s, event))
  {}

  lemma {:induction false} RunKeepsInv(servers: string -> Server, s: State, events: seq<Event>)
    requires AllValid(servers) && Inv(servers(s.agent), s) && VersionsOk(s)
    ensures var t := Run(servers, s, events); Inv(servers(t.agent), t) && VersionsOk(t)
    decreases |events|
  {
    if events != [] {
      NextKeepsInv(servers, s, events[0]);
      NextKeepsVersions(servers, s, events[0]);
      RunKeepsInv(servers, Next(servers, s, events[0]), events[1..]);
    }
  }

  // ----- Main results -----

  // However refreshes, load-mores, failures, selections and agent switches interleave: no id is
  // listed twice; the selected session is listed exactly when anything is; every server session
  // before the cursor is listed; and once a refresh has succeeded, the selected session is listed and
  // no cursor means every server session is. A load-more counts as running exactly while it is in flight.
  lemma ListStaysComplete(servers: string -> Server, agent: string, selected: Id, events: seq<Event>)
    requires AllValid(servers)
    ensures var s := Run(servers, Mounted(agent, selected), events); var server := servers(s.agent);
      && NoDup(s.sessions)
      && (s.selected != "" ==> (s.selected in Ids(s.sessions) <==> s.sessions != []))
      && (s.selected != "" && s.loaded ==> s.selected in Ids(s.sessions))
      && (s.cursor.Some? ==> s.cursor.value < |server.sessions| && Covers(s.sessions, server, s.cursor.value))
      && (s.loaded && s.cursor.None? ==> Covers(s.sessions, server, |server.sessions|))
      && (s.isLoadingMore <==> s.loading.Some?)
  {
    var s0 := Mounted(agent, selected);
    if selected != "" {
      assert Ids([]) == {};
      SelectAddsOne([], selected);
    }
    RunKeepsInv(servers, s0, events);
  }

  // A load-more that arrives moves the cursor a whole page on, or ends it with the last page, whatever
  // refresh completed while it was in flight.
  lemma LoadMoreAdvances(servers: string -> Server, s: State)
    requires AllValid(servers) && Inv(servers(s.agent), s) && s.loading.Some?
    ensures var t := Next(servers, s, LoadMoreArrives);
      && s.cursor == s.loading
      && (t.cursor.None? || t.cursor.value == s.cursor.value + servers(s.agent).pageSize)
      && (t.cursor.None? <==> !servers(s.agent).paged ||
                              s.cursor.value + servers(s.agent).pageSize >= |servers(s.agent).sessions|)
  {}

  // The cursor never moves back within a visit to an agent, and once a refresh has shown that there is
  // no more, it stays so.
  lemma CursorNeverMovesBack(servers: string -> Server, s: State, event: Event)
    requires AllValid(servers) && Inv(servers(s.agent), s) && VersionsOk(s) && s.agent != ""
    requires event.SwitchAgent? ==> event.agent == s.agent
    ensures var t := Next(servers, s, event);
      && (s.cursor.Some? ==> t.cursor.None? || t.cursor.value >= s.cursor.value)
      && (s.loaded && s.cursor.None? ==> t.loaded && t.cursor.None?)
  {}

  // A failure gives up its own request and nothing else: a failed load-more can be started again at the
  // same page, and what a failed refresh might still bring is ignored.
  lemma FailuresAreLocal(servers: string -> Server, s: State, request: nat)
    requires Inv(servers(s.agent), s)
    ensures var t := Next(servers, s, LoadMoreFails);
      && t == s.(loading := None, isLoadingMore := false)
      && (s.loading.Some? ==> Next(servers, t, StartLoadMore) == s)
    ensures var t := Next(servers, s, RefreshFails(request));
      && t == s.(refreshes := t.refreshes) && t.refreshes.Keys == s.refreshes.Keys - {request}
      && Next(servers, t, RefreshArrives(request)) == t
  {}

  // ----- Where sessions are listed -----

  ghost predicate InOrder(list: seq<Session>, a: Session, b: Session) {
    exists i, j :: 0 <= i < j < |list| && list[i] == a && list[j] == b
  }

  lemma OrderInPart(list: seq<Session>, before: seq<Session>, after: seq<Session>, a: Session, b: Session)
    requires InOrder(list, a, b)
    ensures InOrder(before + list + after, a, b)
  {
    var i, j :| 0 <= i < j < |list| && list[i] == a && list[j] == b;
    var whole := before + list + after;
    assert whole[|before| + i] == a && whole[|before| + j] == b;
  }

  lemma OrderAcross(first: seq<Session>, second: seq<Session>, a: Session, b: Session)
    requires a in first && b in second
    ensures InOrder(first + second, a, b)
  {
    var i :| 0 <= i < |first| && first[i] == a;
    var j :| 0 <= j < |second| && second[j] == b;
    assert (first + second)[i] == a && (first + second)[|first| + j] == b;
  }

  // Leaving sessions out keeps the others in their order.
  lemma {:induction false} ExceptKeepsOrder(list: seq<Session>, ids: set<Id>, a: Session, b: Session)
    requires InOrder(list, a, b) && a.id !in ids && b.id !in ids
    ensures InOrder(Except(list, ids), a, b)
    decreases |list|
  {
    var i, j :| 0 <= i < j < |list| && list[i] == a && list[j] == b;
    var rest := list[1..];
    if i > 0 {
      assert rest[i - 1] == a && rest[j - 1] == b;
      ExceptKeepsOrder(rest, ids, a, b);
      OrderInPart(Except(rest, ids), if list[0].id in ids then [] else [list[0]], [], a, b);
      assert Except(list, ids) == (if list[0].id in ids then [] else [list[0]]) + Except(rest, ids) + [];
    } else {
      assert rest[j - 1] == b;
      ExceptSpec(rest, ids);
      OrderAcross([a], Except(rest, ids), a, b);
    }
  }

  // What keeping the selected session puts behind a merged list: nothing, or that session.
  ghost predicate KeptBehind(tail: seq<Session>, merged: seq<Session>, prev: seq<Session>, selected: Id) {
    if selected == "" || selected in Ids(merged) then tail == []
    else
      && |tail| == 1
      && if selected in Ids(prev) then tail[0] in prev && tail[0].id == selected else tail[0] == Placeholder(selected)
  }

  lemma KeepSelectedLayout(merged: seq<Session>, prev: seq<Session>, selected: Id) returns (tail: seq<Session>)
    ensures KeepSelected(merged, prev, selected) == merged + tail && KeptBehind(tail, merged, prev, selected)
  {
    FindSpec(prev, selected);
    tail := KeepSelected(merged, prev, selected)[|merged|..];
  }

  lemma RefreshMerges(servers: string -> Server, s: State, request: nat)
    requires request in s.refreshes && request == s.request
    ensures var page := Page(servers(s.agent), 0).sessions;
      Next(servers, s, RefreshArrives(request)).sessions
      == if s.extra || s.version != s.refreshes[request] then MergeMultiPage(page, s.sessions, s.selected)
         else MergePageOne(page, s.sessions, s.selected)
  {}

  // With only page one loaded, a refresh that no load-more overtook lists the server's own page one and
  // nothing else but the selected session, if page one does not have it, with the data it had.
  lemma RefreshShowsPageOne(servers: string -> Server, s: State, request: nat)
    requires request in s.refreshes && request == s.request && !s.extra && s.version == s.refreshes[request]
    ensures var list := Next(servers, s, RefreshArrives(request)).sessions;
      var page := Page(servers(s.agent), 0).sessions;
      page <= list && KeptBehind(list[|page|..], page, s.sessions, s.selected)
  {
    RefreshMerges(servers, s, request);
    var page := Page(servers(s.agent), 0).sessions;
    var tail := KeepSelectedLayout(page, s.sessions, s.selected);
    assert (page + tail)[|page|..] == tail;
  }

  // Otherwise the server's own page one comes first, and behind it every other session listed before, as
  // it was and in its order; a selected session listed nowhere is a placeholder, last.
  lemma RefreshShowsAllPages(servers: string -> Server, s: State, request: nat, a: Session, b: Session)
    requires request in s.refreshes && request == s.request && (s.extra || s.version != s.refreshes[request])
    ensures var list := Next(servers, s, RefreshArrives(request)).sessions;
      var page := Page(servers(s.agent), 0).sessions;
      && page <= list
      && var rest := list[|page|..];
         && (a in s.sessions && a.id !in Ids(page) ==> a in rest)
         && (InOrder(s.sessions, a, b) && a.id !in Ids(page) && b.id !in Ids(page) ==> InOrder(rest, a, b))
         && (a in rest ==>
               || (a in s.sessions && a.id !in Ids(page))
               || (a == Placeholder(s.selected) && s.selected !in Ids(s.sessions) + Ids(page)
                   && rest[|rest| - 1] == a))
  {
    RefreshMerges(servers, s, request);
    var page := Page(servers(s.agent), 0).sessions;
    var tail := MultiPageShape(page, s.sessions, s.selected);
    RestOfMerge(s.sessions, Ids(page), tail, s.selected, a);
    if InOrder(s.sessions, a, b) && a.id !in Ids(page) && b.id !in Ids(page) {
      OthersInOrder(s.sessions, Ids(page), [], tail, Except(s.sessions, Ids(page)) + tail, a, b);
    }
  }

  lemma RestOfMerge(prev: seq<Session>, ids: set<Id>, tail: seq<Session>, selected: Id, a: Session)
    requires tail == [] || (tail == [Placeholder(selected)] && selected !in Ids(prev) + ids)
    ensures var rest := Except(prev, ids) + tail;
      && (a in prev && a.id !in ids ==> a in rest)
      && (a in rest ==>
            || (a in prev && a.id !in ids)
            || (a == Placeholder(selected) && selected !in Ids(prev) + ids && rest[|rest| - 1] == a))
  {
    ExceptSpec(prev, ids);
  }

  // What is left of a list stands in its order wherever it is put.
  lemma OthersInOrder(list: seq<Session>, ids: set<Id>, before: seq<Session>, after: seq<Session>,
                      whole: seq<Session>, a: Session, b: Session)
    requires InOrder(list, a, b) && a.id !in ids && b.id !in ids && whole == before + Except(list, ids) + after
    ensures InOrder(whole, a, b)
  {
    ExceptKeepsOrder(list, ids, a, b);
    OrderInPart(Except(list, ids), before, after, a, b);
  }

  lemma MultiPageShape(page: seq<Session>, prev: seq<Session>, selected: Id) returns (tail: seq<Session>)
    ensures var r := MergeMultiPage(page, prev, selected);
      r == page + (Except(prev, Ids(page)) + tail) && page <= r && r[|page|..] == Except(prev, Ids(page)) + tail
    ensures tail == [] || (tail == [Placeholder(selected)] && selected !in Ids(prev) + Ids(page))
  {
    var others := Except(prev, Ids(page));
    tail := KeepSelectedLayout(page + others, prev, selected);
    ExceptSpec(prev, Ids(page));
    IdsConcat(page, others);
    assert page + others + tail == page + (others + tail);
  }

  ghost predicate Stays(s: State, x: Session) {
    x in s.sessions && x.id != s.selected
  }

  ghost predicate Arrives(s: State, page: seq<Session>, x: Session) {
    x in page && (x.id == s.selected || x.id !in Ids(s.sessions))
  }

  // After a load-more: every session listed before but the selected one, as it was and in its order, in
  // front; then the arriving sessions not among them, in theirs; then the selected one if it was listed
  // and did not arrive, else its placeholder.
  lemma LoadMoreShows(servers: string -> Server, s: State, a: Session, b: Session)
    requires AllValid(servers) && Inv(servers(s.agent), s) && s.loading.Some?
    ensures var list := Next(servers, s, LoadMoreArrives).sessions;
      var page := Page(servers(s.agent), s.loading.value).sessions;
      && (Stays(s, a) || Arrives(s, page, a) ==> a in list)
      && (Stays(s, a) && Stays(s, b) && InOrder(s.sessions, a, b) ==> InOrder(list, a, b))
      && (Stays(s, a) && Arrives(s, page, b) ==> InOrder(list, a, b))
      && (Arrives(s, page, a) && Arrives(s, page, b) && InOrder(page, a, b) ==> InOrder(list, a, b))
      && (a in list && !Stays(s, a) && !Arrives(s, page, a) ==>
            && a.id == s.selected && s.selected !in Ids(page) && list[|list| - 1] == a
            && if s.selected in Ids(s.sessions) then a in s.sessions else a == Placeholder(s.selected))
  {
    var page := Page(servers(s.agent), s.loading.value).sessions;
    var others := Except(s.sessions, {s.selected});
    var added := Except(page, Ids(others));
    var tail := AppendShape(s.sessions, page, s.selected);
    AppendParts(s, page, a);
    AppendParts(s, page, b);
    AppendOrder(s, page, tail, a, b);
  }

  lemma AppendShape(prev: seq<Session>, page: seq<Session>, selected: Id) returns (tail: seq<Session>)
    ensures var others := Except(prev, {selected}); var added := Except(page, Ids(others));
      && AppendPage(prev, page, selected) == others + added + tail
      && (tail == [] || (selected !in Ids(page) && |tail| == 1 && tail[0].id == selected
                         && if selected in Ids(prev) then tail[0] in prev else tail[0] == Placeholder(selected)))
  {
    var others := Except(prev, {selected});
    var added := Except(page, Ids(others));
    ExceptSpec(prev, {selected});
    ExceptSpec(page, Ids(others));
    IdsConcat(others, added);
    tail := KeepSelectedLayout(others + added, prev, selected);
  }

  // The sessions that stay and those that arrive are the two parts of an appended list.
  lemma AppendParts(s: State, page: seq<Session>, x: Session)
    ensures var others := Except(s.sessions, {s.selected});
      && (x in others <==> Stays(s, x))
      && (x in Except(page, Ids(others)) <==> Arrives(s, page, x))
  {
    var others := Except(s.sessions, {s.selected});
    ExceptSpec(s.sessions, {s.selected});
    ExceptSpec(page, Ids(others));
  }

  lemma AppendOrder(s: State, page: seq<Session>, tail: seq<Session>, a: Session, b: Session)
    ensures var others := Except(s.sessions, {s.selected}); var list := others + Except(page, Ids(others)) + tail;
      && (Stays(s, a) && Stays(s, b) && InOrder(s.sessions, a, b) ==> InOrder(list, a, b))
      && (Stays(s, a) && Arrives(s, page, b) ==> InOrder(list, a, b))
      && (Arrives(s, page, a) && Arrives(s, page, b) && InOrder(page, a, b) ==> InOrder(list, a, b))
  {
    var others := Except(s.sessions, {s.selected});
    ExceptSpec(s.sessions, {s.selected});
    AppendParts(s, page, a);
    AppendParts(s, page, b);
    var added := Except(page, Ids(others));
    if Stays(s, a) && Stays(s, b) && InOrder(s.sessions, a, b) {
      ExceptKeepsOrder(s.sessions, {s.selected}, a, b);
      OrderInFirst(others, added, tail, a, b);
    }
    if Stays(s, a) && Arrives(s, page, b) {
      OrderAcross(others, added, a, b);
      OrderInPart(others + added, [], tail, a, b);
      EmptyFirst(others + added + tail, others + added, tail);
    }
    if Arrives(s, page, a) && Arrives(s, page, b) && InOrder(page, a, b) {
      OthersInOrder(page, Ids(others), others, tail, others + added + tail, a, b);
    }
  }

  lemma OrderInFirst(first: seq<Session>, second: seq<Session>, third: seq<Session>, a: Session, b: Session)
    requires InOrder(first, a, b)
    ensures InOrder(first + second + third, a, b)
  {
    OrderInPart(first, [], second + third, a, b);
    assert [] + first + (second + third) == first + second + third;
  }

  lemma EmptyFirst(whole: seq<Session>, first: seq<Session>, second: seq<Session>)
    requires whole == first + second
    ensures [] + first + second == whole
  {}

  // Setting one session's unread flag touches nothing else.
  lemma UnreadTouchesOne(servers: string -> Server, s: State, id: Id, unread: bool)
    ensures var t := Next(servers, s, SetUnread(id, unread));
      && t == s.(sessions := t.sessions) && |t.sessions| == |s.sessions|
      && forall i :: 0 <= i < |s.sessions| ==>
           t.sessions[i] == if s.sessions[i].id == id then s.sessions[i].(unread := Some(unread)) else s.sessions[i]
  {
    MarkUnreadSpec(s.sessions, id, unread);
  }

  // ----- When the selected session is listed -----

  // The list holds the selected session, if there is one.
  predicate Listed(s: State) {
    s.selected == "" || s.selected in Ids(s.sessions)
  }

  // The exact failing case: the list is emptied under a selection, by a change of agent or by a
  // refresh without one; the effect that includes the selection depends on the selection alone.
  predicate Unlists(s: State, event: Event) {
    s.selected != "" && match event
                        case SwitchAgent(agent) => agent != s.agent
                        case StartRefresh => s.agent == ""
                        case _ => false
  }

  // What lists it again: a change of selection, or the arrival of the current refresh.
  predicate Relists(s: State, event: Event) {
    match event
    case Select(id) => id != s.selected
    case RefreshArrives(request) => request in s.refreshes && request == s.request
    case _ => false
  }

  lemma ListedUnless(servers: string -> Server, s: State, event: Event)
    requires AllValid(servers) && Inv(servers(s.agent), s) && VersionsOk(s)
    ensures Listed(Next(servers, s, event)) <==> if Listed(s) then !Unlists(s, event) else Relists(s, event)
  {
    NextKeepsInv(servers, s, event);
    match event {
      case RefreshArrives(request) =>
        if request in s.refreshes && request == s.request { RefreshLists(servers(s.agent), s, request); }
      case SetUnread(id, unread) => MarkUnreadSpec(s.sessions, id, unread);
      case LoadMoreArrives => if s.loading.Some? { LoadMoreLists(servers(s.agent), s); }
      case _ =>
    }
  }

  lemma RefreshLists(server: Server, s: State, request: nat)
    requires server.Valid() && Inv(server, s) && VersionsOk(s) && request in s.refreshes
    ensures Listed(AfterRefresh(s.(refreshes := s.refreshes - {request}), Page(server, 0), s.refreshes[request]))
  {
    RefreshArrivalKeepsInv(server, s, request);
  }

  lemma LoadMoreLists(server: Server, s: State)
    requires server.Valid() && Inv(server, s) && s.loading.Some?
    ensures Listed(s) && Listed(AfterLoadMore(s, Page(server, s.loading.value)))
  {
    var page := Page(server, s.loading.value);
    PageSpec(server, s.loading.value);
    AppendSpec(s.sessions, page.sessions, s.selected);
  }

  // Whether the last event of a run that mattered listed the selection, given how it began.
  predicate ListedAfter(servers: string -> Server, s: State, events: seq<Event>, listed: bool)
    decreases |events|
  {
    if events == [] then listed
    else
      ListedAfter(servers, Next(servers, s, events[0]), events[1..],
                  if listed then !Unlists(s, events[0]) else Relists(s, events[0]))
  }

  lemma {:induction false} RunListedUnless(servers: string -> Server, s: State, events: seq<Event>)
    requires AllValid(servers) && Inv(servers(s.agent), s) && VersionsOk(s)
    ensures Listed(Run(servers, s, events)) <==> ListedAfter(servers, s, events, Listed(s))
    decreases |events|
  {
    if events != [] {
      ListedUnless(servers, s, events[0]);
      NextKeepsInv(servers, s, events[0]);
      NextKeepsVersions(servers, s, events[0]);
      RunListedUnless(servers, Next(servers, s, events[0]), events[1..]);
    }
  }

  // The failing case happens: a switch of agent leaves the selection unlisted.
  lemma SelectedCanBeMissing(servers: string -> Server)
    ensures var s := Run(servers, Mounted("a", "x"), [SwitchAgent("b")]);
      s.selected == "x" && s.agent == "b" && s.sessions == [] && !Listed(s)
  {
    var events := [SwitchAgent("b")];
    assert events[1..] == [] && "a" != "b";
    assert Run(servers, Mounted("a", "x"), events) == Next(servers, Mounted("a", "x"), events[0]);
  }

  // ----- The data of listed sessions -----

  // The server knows a session by this id with these details.
  ghost predicate Knows(server: Server, id: Id, details: int) {
    exists i :: 0 <= i < |server.sessions| && server.sessions[i].id == id && server.sessions[i].details == Some(details)
  }

  // What is listed with details is listed with the server's.
  ghost predicate FromServer(server: Server, list: seq<Session>) {
    forall s :: s in list && s.details.Some? ==> Knows(server, s.id, s.details.value)
  }

  lemma PageIsFromServer(server: Server, from: nat)
    requires from <= |server.sessions|
    ensures FromServer(server, Page(server, from).sessions)
    ensures forall s :: s in Page(server, from).sessions ==> s in server.sessions
  {
    forall s | s in Page(server, from).sessions
      ensures s in server.sessions
      ensures s.details.Some? ==> Knows(server, s.id, s.details.value)
    {
      var k :| 0 <= k < |Page(server, from).sessions| && Page(server, from).sessions[k] == s;
      assert s in server.sessions;
      var i :| 0 <= i < |server.sessions| && server.sessions[i] == s;
    }
  }

  lemma KeepIsFromServer(server: Server, merged: seq<Session>, prev: seq<Session>, selected: Id)
    requires FromServer(server, merged) && FromServer(server, prev)
    ensures FromServer(server, KeepSelected(merged, prev, selected))
  {
    FindSpec(prev, selected);
  }

  lemma MergesAreFromServer(server: Server, page: seq<Session>, prev: seq<Session>, selected: Id)
    requires FromServer(server, page) && FromServer(server, prev)
    ensures FromServer(server, MergePageOne(page, prev, selected))
    ensures FromServer(server, MergeMultiPage(page, prev, selected))
    ensures FromServer(server, AppendPage(prev, page, selected))
  {
    ExceptSpec(prev, Ids(page));
    var others := Except(prev, {selected});
    ExceptSpec(prev, {selected});
    ExceptSpec(page, Ids(others));
    KeepIsFromServer(server, page, prev, selected);
    KeepIsFromServer(server, page + Except(prev, Ids(page)), prev, selected);
    KeepIsFromServer(server, others + Except(page, Ids(others)), prev, selected);
  }

  lemma UnreadIsFromServer(server: Server, list: seq<Session>, id: Id, unread: bool)
    requires FromServer(server, list)
    ensures FromServer(server, MarkUnread(list, id, unread))
  {
    MarkUnreadSpec(list, id, unread);
    var r := MarkUnread(list, id, unread);
    forall s | s in r && s.details.Some?
      ensures Knows(server, s.id, s.details.value)
    {
      var i :| 0 <= i < |r| && r[i] == s;
      assert list[i] in list;
    }
  }

  lemma RefreshIsFromServer(server: Server, s: State, request: nat)
    requires FromServer(server, s.sessions) && request in s.refreshes
    ensures FromServer(server, AfterRefresh(s.(refreshes := s.refreshes - {request}), Page(server, 0),
                                            s.refreshes[request]).sessions)
  {
    PageIsFromServer(server, 0);
    MergesAreFromServer(server, Page(server, 0).sessions, s.sessions, s.selected);
  }

  lemma LoadMoreIsFromServer(server: Server, s: State)
    requires server.Valid() && Inv(server, s) && s.loading.Some? && FromServer(server, s.sessions)
    ensures FromServer(server, AfterLoadMore(s, Page(server, s.loading.value)).sessions)
  {
    PageIsFromServer(server, s.loading.value);
    MergesAreFromServer(server, Page(server, s.loading.value).sessions, s.sessions, s.selected);
  }

  lemma NextIsFromServer(servers: string -> Server, s: State, event: Event)
    requires AllValid(servers) && Inv(servers(s.agent), s) && FromServer(servers(s.agent), s.sessions)
    ensures var t := Next(servers, s, event); FromServer(servers(t.agent), t.sessions)
  {
    match event {
      case RefreshArrives(request) => if request in s.refreshes { RefreshIsFromServer(servers(s.agent), s, request); }
      case LoadMoreArrives => if s.loading.Some? { LoadMoreIsFromServer(servers(s.agent), s); }
      case SetUnread(id, unread) => UnreadIsFromServer(servers(s.agent), s.sessions, id, unread);
      case _ =>
    }
  }

  ghost predicate HasDetails(list: seq<Session>, id: Id) {
    exists s :: s in list && s.id == id && s.details.Some?
  }

  lemma SameElement(list: seq<Session>, a: Session, b: Session)
    requires NoDup(list) && a in list && b in list && a.id == b.id
    ensures a == b
  {}

  // The session with this id keeps its details through a merge that may replace it with the
  // server's own entry.
  lemma MergeKeepsDetails(merged: seq<Session>, prev: seq<Session>, selected: Id)
    requires NoDup(prev) && HasDetails(prev, selected) && selected != ""
    requires forall s :: s in merged && s.id == selected ==> s.details.Some?
    ensures HasDetails(KeepSelected(merged, prev, selected), selected)
  {
    FindSpec(prev, selected);
    var had :| had in prev && had.id == selected && had.details.Some?;
    if selected in Ids(merged) {
      var s :| s in merged && s.id == selected;
      assert s in KeepSelected(merged, prev, selected);
    } else {
      SameElement(prev, had, Find(prev, selected).value);
      var r := KeepSelected(merged, prev, selected);
      assert r[|r| - 1] == had;
    }
  }

  lemma RefreshKeepsDetails(server: Server, s: State, versionAtStart: nat)
    requires server.Valid() && Inv(server, s) && HasDetails(s.sessions, s.selected) && s.selected != ""
    ensures HasDetails(AfterRefresh(s, Page(server, 0), versionAtStart).sessions, s.selected)
  {
    var page := Page(server, 0).sessions;
    assert forall x :: x in page ==> x in server.sessions;
    ExceptSpec(s.sessions, Ids(page));
    var multi := page + Except(s.sessions, Ids(page));
    var had :| had in s.sessions && had.id == s.selected && had.details.Some?;
    forall x | x in multi && x.id == s.selected
      ensures x.details.Some?
    {
      if x !in page { SameElement(s.sessions, had, x); }
    }
    MergeKeepsDetails(page, s.sessions, s.selected);
    MergeKeepsDetails(multi, s.sessions, s.selected);
  }

  lemma LoadMoreKeepsDetails(server: Server, s: State)
    requires server.Valid() && Inv(server, s) && s.loading.Some?
    requires HasDetails(s.sessions, s.selected) && s.selected != ""
    ensures HasDetails(AfterLoadMore(s, Page(server, s.loading.value)).sessions, s.selected)
  {
    var page := Page(server, s.loading.value).sessions;
    assert forall x :: x in page ==> x in server.sessions;
    var others := Except(s.sessions, {s.selected});
    ExceptSpec(s.sessions, {s.selected});
    ExceptSpec(page, Ids(others));
    MergeKeepsDetails(others + Except(page, Ids(others)), s.sessions, s.selected);
  }

  lemma UnreadKeepsDetails(list: seq<Session>, id: Id, unread: bool, selected: Id)
    requires HasDetails(list, selected)
    ensures HasDetails(MarkUnread(list, id, unread), selected)
  {
    MarkUnreadSpec(list, id, unread);
    var had :| had in list && had.id == selected && had.details.Some?;
    var i :| 0 <= i < |list| && list[i] == had;
    assert MarkUnread(list, id, unread)[i] in MarkUnread(list, id, unread);
  }

  lemma NextKeepsDetails(servers: string -> Server, s: State, event: Event)
    requires AllValid(servers) && Inv(servers(s.agent), s) && s.agent != ""
    requires s.selected != "" && HasDetails(s.sessions, s.selected)
    requires !event.SwitchAgent? && (event.Select? ==> event.id == s.selected)
    ensures var t := Next(servers, s, event);
      t.agent == s.agent && t.selected == s.selected && HasDetails(t.sessions, s.selected)
  {
    match event {
      case RefreshArrives(request) =>
        if request in s.refreshes && request == s.request {
          RefreshKeepsDetails(servers(s.agent), s.(refreshes := s.refreshes - {request}), s.refreshes[request]);
        }
      case LoadMoreArrives => if s.loading.Some? { LoadMoreKeepsDetails(servers(s.agent), s); }
      case SetUnread(id, unread) => UnreadKeepsDetails(s.sessions, id, unread, s.selected);
      case Select(id) =>
        var had :| had in s.sessions && had.id == s.selected && had.details.Some?;
        assert had.id in Ids(s.sessions);
      case _ =>
    }
  }

  lemma {:induction false} DetailsStay(servers: string -> Server, s: State, events: seq<Event>)
    requires AllValid(servers) && Inv(servers(s.agent), s) && VersionsOk(s) && s.agent != ""
    requires s.selected != "" && HasDetails(s.sessions, s.selected) && FromServer(servers(s.agent), s.sessions)
    requires forall e :: e in events ==> !e.SwitchAgent? && (e.Select? ==> e.id == s.selected)
    ensures var t := Run(servers, s, events);
      t.agent == s.agent && HasDetails(t.sessions, s.selected) && FromServer(servers(s.agent), t.sessions)
    decreases |events|
  {
    if events != [] {
      NextKeepsInv(servers, s, events[0]);
      NextKeepsVersions(servers, s, events[0]);
      NextKeepsDetails(servers, s, events[0]);
      NextIsFromServer(servers, s, events[0]);
      DetailsStay(servers, Next(servers, s, events[0]), events[1..]);
    }
  }

  lemma KnownOnce(server: Server, id: Id, d: int, e: int)
    requires server.Valid() && Knows(server, id, d) && Knows(server, id, e)
    ensures d == e
  {
    var i :| 0 <= i < |server.sessions| && server.sessions[i].id == id && server.sessions[i].details == Some(d);
    var j :| 0 <= j < |server.sessions| && server.sessions[j].id == id && server.sessions[j].details == Some(e);
    assert i == j;
  }

  // Within one visit to an agent and while it stays selected, the selected session is listed with the
  // very data it had.
  lemma SelectedKeepsItsData(servers: string -> Server, s: State, events: seq<Event>, had: Session)
    requires AllValid(servers) && Inv(servers(s.agent), s) && VersionsOk(s) && s.agent != ""
    requires FromServer(servers(s.agent), s.sessions)
    requires had in s.sessions && had.id == s.selected != "" && had.details.Some?
    requires forall e :: e in events ==> !e.SwitchAgent? && (e.Select? ==> e.id == s.selected)
    ensures exists now :: now in Run(servers, s, events).sessions && now.id == had.id && now.details == had.details
  {
    DetailsStay(servers, s, events);
    var t := Run(servers, s, events);
    var now :| now in t.sessions && now.id == s.selected && now.details.Some?;
    KnownOnce(servers(s.agent), had.id, had.details.value, now.details.value);
  }

  // What that rests on holds of every run from the start.
  lemma {:induction false} ListIsFromServer(servers: string -> Server, s: State, events: seq<Event>)
    requires AllValid(servers) && Inv(servers(s.agent), s) && VersionsOk(s)
    requires FromServer(servers(s.agent), s.sessions)
    ensures var t := Run(servers, s, events); FromServer(servers(t.agent), t.sessions)
    decreases |events|
  {
    if events != [] {
      NextKeepsInv(servers, s, events[0]);
      NextKeepsVersions(servers, s, events[0]);
      NextIsFromServer(servers, s, events[0]);
      ListIsFromServer(servers, Next(servers, s, events[0]), events[1..]);
    }
  }

  // ----- Placeholders -----

  // An arriving load-more lists an entry that was not listed exactly when it is the selected
  // session's or nothing was listed under its id.
  lemma LoadMoreHydrates(servers: string -> Server, s: State, entry: Session)
    requires AllValid(servers) && Inv(servers(s.agent), s) && s.loading.Some?
    requires entry in Page(servers(s.agent), s.loading.value).sessions && entry !in s.sessions
    ensures entry in Next(servers, s, LoadMoreArrives).sessions
            <==> entry.id == s.selected || entry.id !in Ids(s.sessions)
  {
    PageSpec(servers(s.agent), s.loading.value);
    AppendHydratesOnlyTheSelected(s.sessions, Page(servers(s.agent), s.loading.value).sessions, s.selected, entry);
  }

  const THREE: Server :=
    Server([Session("a", Some(1), None), Session("b", Some(2), None), Session("x", Some(3), None)], 2, true)

  lemma ThreePages()
    ensures Page(THREE, 0) == Response([THREE.sessions[0], THREE.sessions[1]], Some(2))
    ensures Page(THREE, 2) == Response([THREE.sessions[2]], None)
    ensures "a" != "x" && "b" != "x" && "a" != "b"
  {
    assert THREE.sessions[0..2] == [THREE.sessions[0], THREE.sessions[1]];
    assert THREE.sessions[2..] == [THREE.sessions[2]];
  }

  // Page one with the selected session's placeholder behind it.
  lemma RefreshedPlaceholder()
    ensures MergePageOne(Page(THREE, 0).sessions, [Placeholder("x")], "x")
         == [THREE.sessions[0], THREE.sessions[1], Placeholder("x")]
  {
    ThreePages();
    assert Ids([THREE.sessions[0], THREE.sessions[1]]) == {"a", "b"};
  }

  // So a placeholder can outlive the arrival of its own page: select x, which is off page one,
  // refresh, select a session of page one, and load x's page.
  lemma PlaceholderCanStay(servers: string -> Server, events: seq<Event>)
    requires servers("agent") == THREE
    requires events == [StartRefresh, RefreshArrives(1), Select("a"), StartLoadMore, LoadMoreArrives]
    ensures var s := Run(servers, Mounted("agent", "x"), events);
      s.loaded && s.cursor == None && Placeholder("x") in s.sessions && THREE.sessions[2] !in s.sessions
  {
    RunFive(servers, Mounted("agent", "x"), events);
    var s2 := Next(servers, Next(servers, Mounted("agent", "x"), StartRefresh), RefreshArrives(1));
    assert "agent" != "";
    PlaceholderRefreshed(servers, s2);
    PlaceholderLoaded(servers, s2);
  }

  lemma PlaceholderLoaded(servers: string -> Server, s: State)
    requires servers("agent") == THREE && "agent" != "" && s.agent == "agent" && s.selected == "x"
    requires s.loaded && s.cursor == Some(2) && s.loading.None? && !s.isLoadingMore
    requires s.sessions == [THREE.sessions[0], THREE.sessions[1], Placeholder("x")]
    ensures var t := Next(servers, Next(servers, Next(servers, s, Select("a")), StartLoadMore), LoadMoreArrives);
      t.loaded && t.cursor == None && Placeholder("x") in t.sessions && THREE.sessions[2] !in t.sessions
  {
    ThreePages();
    var s3 := Next(servers, s, Select("a"));
    assert THREE.sessions[0] in s.sessions && s3.sessions == s.sessions;
    LoadedPlaceholder(THREE.sessions[0], THREE.sessions[1], THREE.sessions[2]);
  }

  lemma PlaceholderRefreshed(servers: string -> Server, s2: State)
    requires servers("agent") == THREE && "agent" != ""
    requires s2 == Next(servers, Next(servers, Mounted("agent", "x"), StartRefresh), RefreshArrives(1))
    ensures s2.agent == "agent" && s2.selected == "x" && s2.loaded && s2.cursor == Some(2)
    ensures s2.loading.None? && !s2.isLoadingMore
    ensures s2.sessions == [THREE.sessions[0], THREE.sessions[1], Placeholder("x")]
  {
    ThreePages();
    RefreshedPlaceholder();
    assert Mounted("agent", "x").sessions == [Placeholder("x")];
  }

  lemma LoadedPlaceholder(a: Session, b: Session, x: Session)
    requires a.id == "a" && b.id == "b" && x.id == "x" && x.details.Some?
    ensures var r := AppendPage([a, b, Placeholder("x")], [x], "a");
      Placeholder("x") in r && x !in r
  {
    var prev := [a, b, Placeholder("x")];
    assert "a" != "x" && "b" != "x" && "a" != "b";
    assert Placeholder("x") in prev && x !in prev;
    AppendHydratesOnlyTheSelected(prev, [x], "a", x);
    ExceptSpec(prev, {"a"});
  }

  lemma RunFive(servers: string -> Server, s: State, events: seq<Event>)
    requires |events| == 5
    ensures Run(servers, s, events)
         == Next(servers, Next(servers, Next(servers, Next(servers, Next(servers, s, events[0]), events[1]), events[2]),
                 events[3]), events[4])
  {
    var s1 := Next(servers, s, events[0]);
    var s2 := Next(servers, s1, events[1]);
    var s3 := Next(servers, s2, events[2]);
    var s4 := Next(servers, s3, events[3]);
    assert Run(servers, s, events) == Run(servers, s1, events[1..]);
    assert Run(servers, s1, events[1..]) == Run(servers, s2, events[1..][1..]) && events[1..][1..] == events[2..];
    assert Run(servers, s2, events[2..]) == Run(servers, s3, events[2..][1..]) && events[2..][1..] == events[3..];
    assert Run(servers, s3, events[3..]) == Run(servers, s4, events[3..][1..]) && events[3..][1..] == events[4..];
    assert events[4..][1..] == [];
  }

  // The hook's refs and state variables. `listSessions` is answered by `servers`.
  class SessionList {
    const servers: string -> Server
    var agent: string
    var selected: Id
    var sessions: seq<Session>
    var nextCursor: Option<nat>
    var hasLoadedSessions: bool
    var hasLoadedExtraPages: bool
    var loadMoreVersion: nat
    var isLoadingMore: bool
    var loadMoreRequest: Option<nat>
    var sessionsRequest: nat
    var refreshRequests: map<nat, nat>

    ghost function View(): State
      reads this
    {
      State(agent, selected, sessions, nextCursor, hasLoadedSessions, hasLoadedExtraPages, loadMoreVersion,
            isLoadingMore, loadMoreRequest, sessionsRequest, refreshRequests)
    }

    constructor (servers: string -> Server, agent: string, selected: Id)
      ensures View() == Mounted(agent, selected) && this.servers == servers
    {
      this.servers, this.agent, this.selected := servers, agent, selected;
      sessions, nextCursor, hasLoadedSessions := IncludeSelected([], selected), None, false;
      hasLoadedExtraPages, loadMoreVersion, isLoadingMore, loadMoreRequest := false, 0, false, None;
      sessionsRequest, refreshRequests := 0, map[];
    }

    method ResetPaginationAndList()
      modifies this
      ensures View() == Reset(old(View()))
    {
      loadMoreRequest := None;
      nextCursor := None;
      isLoadingMore := false;
      hasLoadedExtraPages := false;
      loadMoreVersion := 0;
      sessions := [];
      hasLoadedSessions := false;
    }

    method HandleAgentSwitch(currentAgent: string)
      modifies this
      ensures View() == Next(servers, old(View()), SwitchAgent(currentAgent))
    {
      if agent != currentAgent {
        agent := currentAgent;
        refreshRequests := map[];
        ResetPaginationAndList();
      }
    }

    method SelectSession(id: Id)
      modifies this
      ensures View() == Next(servers, old(View()), Select(id))
    {
      if selected == id { return; }
      selected := id;
      sessions := IncludeSelected(sessions, id);
    }

    method RefreshSessions()
      modifies this
      ensures View() == Next(servers, old(View()), StartRefresh)
    {
      sessionsRequest := sessionsRequest + 1;
      if agent == "" {
        ResetPaginationAndList();
        return;
      }
      refreshRequests := refreshRequests[sessionsRequest := loadMoreVersion];
    }

    // `executeRefresh` past its await.
    method ExecuteRefresh(request: nat)
      requires request in refreshRequests
      modifies this
      ensures View() == Next(servers, old(View()), RefreshArrives(request))
    {
      var loadMoreVersionAtStart := refreshRequests[request];
      refreshRequests := refreshRequests - {request};
      if request != sessionsRequest { return; }
      var page := Page(servers(agent), 0);
      var loadMoreCompleted := loadMoreVersion != loadMoreVersionAtStart;
      if AdoptsPageOneCursor(hasLoadedExtraPages, loadMoreCompleted) {
        nextCursor := page.next;
      }
      sessions := MergeRefreshed(page.sessions, sessions, selected, hasLoadedExtraPages, loadMoreCompleted);
      hasLoadedSessions := true;
    }

    method LoadMore()
      modifies this
      ensures View() == Next(servers, old(View()), StartLoadMore)
    {
      if agent == "" || nextCursor.None? || isLoadingMore { return; }
      isLoadingMore := true;
      loadMoreRequest := nextCursor;
    }

    // `executeLoadMore` past its await, and the finally block of its caller.
    method ExecuteLoadMore()
      requires loadMoreRequest.Some?
      modifies this
      ensures View() == Next(servers, old(View()), LoadMoreArrives)
    {
      var page := Page(servers(agent), loadMoreRequest.value);
      hasLoadedExtraPages := true;
      loadMoreVersion := loadMoreVersion + 1;
      nextCursor := page.next;
      sessions := AppendPage(sessions, page.sessions, selected);
      loadMoreRequest := None;
      isLoadingMore := false;
    }
  }
}
