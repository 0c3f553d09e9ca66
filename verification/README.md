# Verified models of harnx's protocols and transformations

Dafny models of the parts of harnx whose correctness spans several operations: the web client's
retry protocol, session paging and sub-agent notes; the A2A server's task stream, visit pausing,
input budget, export dispatch and request normalisation; the model catalog scripts; the crash-safe
directory swap; the reasoning probe's event ledger; and the Jira auth hook's config round trip.
`dafny verify dfyconfig.toml` checks everything.

Each module follows one component. Code that updates state step by step is a class whose methods
are proved equal to a step function (`View() == Next(old(View()), event)`), or a method with a loop
proved against a specification; the lemmas are about all runs of that step function, so they hold of
the class. Clocks, random numbers, the network, timers and file operations that may fail are
parameters, events or nondeterministic choices.

| module | component |
|---|---|
| `Connection`, `CoordinatorObject` | shared retry timer, registered reads, waiters, backoff, published snapshot |
| `HttpClient` | any number of retrying fetches over one coordinator |
| `SessionPaging` | refresh and load-more racing over one session list |
| `SubAgentNotes` | the eleven-event note reducer |
| `TaskStream` | snapshot plus filtered at-least-once feed |
| `ModelNames`, `Catalog` | alias ownership, sorting, regeneration of one provider's models |
| `ReplaceDir` | staging, double rename and rollback over a failing file system |
| `FaultInjection` | arming one visit of a boundary under any interleaving |
| `Subscriber` | coalesced refreshes across effect teardown and set-up |
| `InputMap` | byte budget counted before rendering |
| `AttemptLedger` | attribution of wire events to requests, and the probe's verdict |
| `Exports` | export resolution, dispatch, path rewriting |
| `Compat` | JSON-RPC request normalisation |
| `JiraConfig` | synthetic config text and the builtin line parser |
| `Options` | the option type |

## Where the code does less than one might expect

Five properties a reader could take for granted do not hold of the code. Each is shown to fail, and
stated with the exact condition under which it holds.

- **Lost wake-up in the subscriber.** If an update arrives during a refresh, the effect is torn down,
  and the refresh then ends before the next effect sets up, the old effect's tail re-arms the shared
  timer. The next set-up finds the timer taken and does not arm its own; the old timer does nothing
  when it fires. `Subscriber.AwakeUnless` shows that a set-up while a timer is armed is exactly the
  failing step, `Subscriber.SetupUnderStaleTimerIsLost` that the update then stays unserved, and
  `Subscriber.LostWakeUpIsReachable` that the situation can arise.
- **The selected session can be missing from the list.** Changing the agent, or refreshing without
  one, empties the list, and the effect that includes the selection depends on the selection alone
  (`web/src/useSessionDiscovery.ts:685-719`). Until the selection changes or a refresh arrives, it is
  not listed: `SessionPaging.SelectedCanBeMissing` gives the input, `SessionPaging.ListedUnless` and
  `SessionPaging.RunListedUnless` say exactly when it is listed after a step and after a run, and
  `SessionPaging.ListStaysComplete` that it is listed exactly when anything is.
- **A placeholder of an earlier selection.** The selected session's placeholder is filled in by its
  page, as `web/README.md:159` says. One left behind by a selection that has since changed is not, so
  the session stays without its data after its own page has arrived: `SessionPaging.LoadMoreHydrates`
  says exactly when an arriving entry is listed, and `SessionPaging.PlaceholderCanStay` gives the run.
- **Swapping with nothing installed.** After a crash between the two renames the old install is only
  in the backup, and a rerun clears the backup before it has copied anything. `ReplaceDir.FileSystem.Replace`
  shows that a successful run keeps a complete old or new tree throughout exactly when the
  destination exists at its start, and that a rerun that fails without one, other than in the middle
  of removing the backup, has lost the old install exactly when it had cleared the backup by then.
- **`Pause::reached` can be overtaken.** A later visit may announce itself first, so the value waited
  for can be passed while the armed visit has not yet come to its gate. `FaultInjection.FaithfulUnless`
  shows that such an announcement is exactly the failing step,
  `FaultInjection.ReachedIsFaithfulUnlessOvertaken` says the same of runs, and
  `FaultInjection.ReachedCanOvertake` gives one.

## Model

| member | source | states |
|---|---|---|
| Connection.DelaysFrom | web/src/connection.ts:54-64 | both configured delays come out positive whatever the options hold, a usable option is used as given, and any other gives a second or a minute |
| Connection.BackoffShape | web/src/connection.ts:95-96 | the base delay is positive, never above the maximum, never falls with the attempt, and is constant from the seventh |
| Connection.BackoffDoubles | web/src/connection.ts:95 | the first base delay is the initial one, and each of the next six is twice the one before, all capped at the maximum |
| Connection.StreakBacksOff | web/src/connection.ts:92-107 | the first delay of a streak is jittered around the initial delay, capped at the maximum, each next one up to the seventh around twice the base before it, later ones around the same base; jittered means at least half and less than one and a half times |
| Connection.RoundIsDue | web/src/connection.ts:92-107 | the round a waiter starts is due after its base times the random number plus a half, and the base of the first round of a streak is the initial delay, capped |
| Connection.StepKeepsInv | web/src/connection.ts:77-139 | every operation keeps: waiters belong to registered reads, a timer is armed exactly while someone waits, a promise is pending exactly while its waiter is listed, the counter counts the rounds of the streak, the snapshot is the derived state |
| Connection.ReachableStates | web/src/connection.ts:77-139 | the same of every state any sequence of operations reaches, with the counter zero exactly when no read is registered |
| Connection.WaiterSettlesOnTime | web/src/connection.ts:98-139 | however a run goes on, a waiter is still pending before the retry time in force when it joined, or has been settled exactly once, by its round at that time or by a rejection before it |
| Connection.WhySettled | web/src/connection.ts:98-139 | a pending promise is resolved with its own cleanup by its round, rejected by its own cleanup or its signal's abort, both at that moment, and settled by nothing else |
| Connection.NoRoundCancelledUnderAWaiter | web/src/connection.ts:86-126 | while anyone is left waiting, no operation but the round itself cancels or moves the round |
| Connection.AbortRunsOneCleanup | web/src/connection.ts:109-126 | an abort event runs the one cleanup of the current registration, or nothing |
| Connection.StaleCleanupIsInert | web/src/connection.ts:110-113 | a cleanup once spent stays spent: after any run it changes nothing, even if its signal has been registered again |
| Connection.RunKeepsPromises | web/src/connection.ts:44-52 | over any run a promise keeps its signal, cleanup and deadline, and no settlement is taken back |
| Connection.SnapshotTells | web/src/connection.ts:77-84 | the snapshot says reconnecting exactly as long as a read is registered and the last observation otherwise, with the number of registered reads, the retry time in force and the length of the streak |
| Connection.ObservationIsTheLast | web/src/connection.ts:128-155 | after any run the observation kept is the last one made: online by a success, degraded by trouble or by a read that begins to wait |
| Connection.ReentrancyLinearizes | web/src/connection.ts:77-84 | operations that listeners perform while being notified, nested to any depth, come to the same as some sequence of operations |
| CoordinatorObject.Coordinator.constructor | web/src/connection.ts:58-75 | a new coordinator is the initial state with its sanitised delays |
| CoordinatorObject.Coordinator.PublishSnapshot | web/src/connection.ts:77-84 | the snapshot becomes the derived state, and the listeners are called, finding that state, exactly when it changed |
| CoordinatorObject.Coordinator.Cleanup | web/src/connection.ts:110-121 | one cleanup closure acts only for the registration it was made for: that read and its waiter go, the round and the counter with the last of them |
| CoordinatorObject.Coordinator.Abort | web/src/connection.ts:124 | dispatching the abort event to the attached listeners is one abort step |
| CoordinatorObject.Coordinator.WaitForRetry | web/src/connection.ts:128-139 | a signal aborted already is refused; otherwise the step's promise is returned, and a second call for one signal gets the first one's |
| CoordinatorObject.Coordinator.FireRound | web/src/connection.ts:98-106 | the timer settles every waiter of its batch and leaves later ones alone; the listeners, if called, find the batch settled |
| CoordinatorObject.Coordinator.Unregister | web/src/connection.ts:110-121 | calling a cleanup is one unregister step |
| CoordinatorObject.Coordinator.NoteSuccess | web/src/connection.ts:148-151 | records the observation and publishes it |
| CoordinatorObject.Coordinator.NoteTransientTrouble | web/src/connection.ts:152-155 | records the observation and publishes it |
| CoordinatorObject.Coordinator.Execute | web/src/connection.ts:77-156 | every operation notifies at most once, exactly when the snapshot changed, and what the listeners then find is the state the operation leaves |
| CoordinatorObject.Coordinator.PerformCall | web/src/connection.ts:77-84 | performing a call and then what its listeners do, on the object and to any depth, is the re-entrant call that is proved to linearize |
| HttpClient.NextKeepsInv | web/src/httpClient.ts:176-258 | every move of any fetch, of its caller or of the coordinator keeps each fetch's phase in step with the coordinator |
| HttpClient.RegisteredReadsAreTheRetryingOnes | web/src/httpClient.ts:176-258 | under every interleaving the registered reads are exactly the operations that have failed transiently and have neither ended nor been aborted |
| HttpClient.NothingLeftBehind | web/src/httpClient.ts:237-258 | once all operations have ended, no read, waiter or timer remains and the attempt counter is 0 |
| HttpClient.SuccessIsObserved | web/src/httpClient.ts:207-219 | a success ends its operation alone, is observed as online at once, and shows if no read is registered |
| HttpClient.PhasesFollow | web/src/httpClient.ts:176-258 | an operation starts unless its signal is aborted; a transient failure waits unless its operation is aborted; a waiting operation fetches again once its promise is resolved and closes once it is rejected; a lasting error closes and leaves the coordinator alone; what closes ends |
| SessionPaging.MultiPageSpec | web/src/useSessionDiscovery.ts:142-157 | merging page one into a longer list duplicates nothing, loses nothing and lists the selected session |
| SessionPaging.RefreshShowsPageOne | web/src/useSessionDiscovery.ts:202-258 | with page one alone loaded, the current refresh lists the server's own page one and behind it at most the selected session, with the data it had, or its placeholder |
| SessionPaging.RefreshShowsAllPages | web/src/useSessionDiscovery.ts:142-157 | with more pages loaded, the current refresh lists the server's own page one first, then every other session listed before, as it was and in its order, and nothing else but a last placeholder of a selected session listed nowhere |
| SessionPaging.AppendSpec | web/src/useSessionDiscovery.ts:159-175 | appending a page duplicates no id, loses none but an empty one, and lists every incoming id and the selected one |
| SessionPaging.AppendHydratesOnlyTheSelected | web/src/useSessionDiscovery.ts:159-175 | an incoming entry is listed if and only if it is the selected session's or its id was not listed before |
| SessionPaging.NextKeepsInv | web/src/useSessionDiscovery.ts:191-292 | every start, arrival or failure of a refresh or load-more, every selection and every agent switch keeps the list's invariant |
| SessionPaging.ListStaysComplete | web/src/useSessionDiscovery.ts:129-410 | for every interleaving: ids are unique, a selected session is listed exactly when anything is and always after a successful refresh, everything before the cursor is listed, and after a successful refresh no cursor means everything is listed |
| SessionPaging.ListedUnless | web/src/useSessionDiscovery.ts:685-719 | after any event the selected session is listed if and only if it was and the event did not empty the list under it, or it was not and the event changed the selection or brought the current refresh |
| SessionPaging.RunListedUnless | web/src/useSessionDiscovery.ts:685-719 | the same over any run: what counts is the last event that listed or unlisted it |
| SessionPaging.SelectedCanBeMissing | web/src/useSessionDiscovery.ts:685-719 | a switch of agent leaves the selected session unlisted |
| SessionPaging.LoadMoreHydrates | web/src/useSessionDiscovery.ts:379-410 | an entry of an arriving page that was not listed is then listed if and only if it is the selected session's or nothing was listed under its id |
| SessionPaging.LoadMoreShows | web/src/useSessionDiscovery.ts:159-175 | a load-more lists the earlier sessions but the selected one, as they were and in their order, then the arriving ones not among them in theirs, then the selected one if it did not arrive, and nothing else |
| SessionPaging.PlaceholderCanStay | web/src/useSessionDiscovery.ts:159-175 | a run after which the list is exhausted and an earlier selection is still a placeholder |
| SessionPaging.LoadMoreAdvances | web/src/useSessionDiscovery.ts:379-410 | a load-more that arrives moves the cursor on by its page, whatever refresh completed meanwhile |
| SessionPaging.CursorNeverMovesBack | web/src/useSessionDiscovery.ts:191-258 | within a visit to an agent no event moves the cursor back, and an exhausted list stays exhausted |
| SessionPaging.FailuresAreLocal | web/src/useSessionDiscovery.ts:294-444 | a failed request is given up and nothing else changes: a failed load-more can be started again at the same page, and a refresh that failed is not heard again |
| SessionPaging.SelectedKeepsItsData | web/src/useSessionDiscovery.ts:129-175 | within one agent visit and while it stays selected, the selected session is listed with the very data it had |
| SessionPaging.ListIsFromServer | web/src/useSessionDiscovery.ts:129-410 | in every run, data listed for a session is the data the server has for it |
| SessionPaging.UnreadTouchesOne | web/src/useSessionDiscovery.ts:799-803 | setting one unread flag changes that flag of that session and nothing else |
| SessionPaging.SessionList.ExecuteRefresh | web/src/useSessionDiscovery.ts:260-292 | a refresh response updates the fields as the step says; an outdated one changes nothing |
| SessionPaging.SessionList.ExecuteLoadMore | web/src/useSessionDiscovery.ts:379-410 | a load-more response updates the fields as the step says |
| SessionPaging.SessionList.LoadMore | web/src/useSessionDiscovery.ts:446-512 | a load-more starts only with an agent, a cursor and none in flight, and is marked at once |
| SessionPaging.SessionList.ResetPaginationAndList | web/src/useSessionDiscovery.ts:541-550 | empties the list and the pagination state and drops the load-more in flight |
| SessionPaging.SessionList.HandleAgentSwitch | web/src/useSessionDiscovery.ts:330-343 | a change of agent drops what is in flight and empties the list; the same agent changes nothing |
| SessionPaging.SessionList.SelectSession | web/src/useSessionDiscovery.ts:715-717 | a change of selection lists the selected session; selecting it again changes nothing |
| SessionPaging.SessionList.RefreshSessions | web/src/useSessionDiscovery.ts:615-640 | a refresh gets a new number and notes the load-more version; without an agent it empties the list |
| SubAgentNotes.ReduceKeepsNames | web/src/subAgentNotes.ts:217-606 | every event keeps note ids unique and each note's id tied to its invocation or its launching call |
| SubAgentNotes.NoteIdsAreUnique | web/src/subAgentNotes.ts:217-606 | after any sequence of events, snapshots, adopted notes and replays included, no two notes share an id |
| SubAgentNotes.ReduceAdvances | web/src/subAgentNotes.ts:332-582 | an event other than a reset or snapshot keeps every note in its place and parent and lowers no status; failed and cancelled do not become each other, done is final |
| SubAgentNotes.NotesOnlyAdvance | web/src/subAgentNotes.ts:332-582 | the same over any run without reset or snapshot |
| SubAgentNotes.RunEndSettles | web/src/subAgentNotes.ts:432-460 | the end of a run, good or bad, fails every note that is running or awaiting approval, its elapsed time frozen at now, leaves every other note alone and forgets the latest parent |
| SubAgentNotes.ChildTerminalStops | web/src/subAgentNotes.ts:510-552 | a child's end stops the first live note of its invocation, else of its tool call, and no other, as failed, cancelled or else done, its elapsed time frozen; without such a note nothing changes |
| SubAgentNotes.ChildAwaitingPauses | web/src/subAgentNotes.ts:554-568 | a child asking for approval pauses the running note it means, its elapsed time counted, and no other |
| SubAgentNotes.ChildRunningResumes | web/src/subAgentNotes.ts:570-580 | a child going on sets the waiting note it means running again, and touches no other |
| SubAgentNotes.ProgressUpdates | web/src/subAgentNotes.ts:299-393 | a report updates the first note it is about to what it says, if the note is live, failed but now done, or restored with that very status, and otherwise changes nothing |
| SubAgentNotes.ProgressStarts | web/src/subAgentNotes.ts:369-393 | a report about no note starts one at the end under the message that launched its call, else under the latest parent, else it is dropped |
| SubAgentNotes.LatestParentIsTheLastStarted | web/src/subAgentNotes.ts:462-481 | after any run the latest parent is the message of the last tool call started since a run began or ended or the notes were replaced |
| SubAgentNotes.SnapshotNoteSpec | web/src/subAgentNotes.ts:217-262 | which tool messages of a snapshot restore a note, and what the note then holds: the last report of its child, else a finished note, or a failed one of a partial result |
| SubAgentNotes.SnapshotReplaces | web/src/subAgentNotes.ts:267-508 | a snapshot replaces all notes by what its tool messages restore, the last one for each id |
| SubAgentNotes.ParentsSpec | web/src/subAgentNotes.ts:202-274 | a launched call's parent is the last message that launched it |
| SubAgentNotes.CompletionTakesTheLatest | web/src/subAgentNotes.ts:395-430 | a result that only identifies its child ends the latest note of that child as done, its elapsed time frozen, and no other; one that does not even do that changes nothing |
| SubAgentNotes.ResultReports | web/src/subAgentNotes.ts:395-412 | a result that carries a report is that report without its start time, for the call it names or else the one the result answers |
| SubAgentNotes.ReplayedProgressChangesNothing | web/src/subAgentNotes.ts:369-393 | applying one progress event a second time leaves the notes as after the first, their update time aside |
| TaskStream.StreamTask | crates/harnx-a2a-server/src/sse.rs:11-46 | for any feed the stream is the snapshot and then exactly the running maxima above its sequence number, up to the first boundary, or up to a lost delta and one error; it stays open only while neither has come |
| TaskStream.NothingFollowsTheClose | crates/harnx-a2a-server/src/sse.rs:20-42 | a boundary event or the error is never followed by anything |
| TaskStream.RecordsArePublished | crates/harnx-a2a-server/src/sse.rs:25-32 | of any at-least-once feed in first-occurrence order, the filter lets through each newer published event once, in order |
| TaskStream.DeliversExactlyOnce | crates/harnx-a2a-server/src/sse.rs:11-46 | folding the snapshot with the stream gives the state of applying every published event exactly once up to the closing point |
| ModelNames.AliasParts | scripts/model_variants.py:111-120 | an alias splits back into its base and suffix |
| ModelNames.GeneratedNames | scripts/model_variants.py:106-121 | the generator owns exactly the aliases of its suffixes for bases of its prefix, and nothing of other providers |
| ModelNames.BeforeIsStrictTotal | scripts/model_variants.py:406-410 | no two names tie in the sort order, so dictionary order never shows |
| ModelNames.VariantsFollowTheirBase | scripts/model_variants.py:406-410 | a variant sorts after its base with nothing but variants of that base between |
| ModelNames.AscendingIsUnique | scripts/model_variants.py:406-410 | a set of names has one sorted list |
| ModelNames.Sorted | scripts/update_models.py:843-854 | sorting gives the same names in strictly ascending order |
| Catalog.PlansAreOwned | scripts/model_variants.py:274-403 | every variant the generator makes has a name it owns |
| Catalog.NoTwoVariantsCollide | scripts/model_variants.py:150-173 | two variants under one name are the same variant of the same base |
| Catalog.RulesAbsorb | scripts/model_variants.py:176-293 | a model whose every field is as before or as the rules left it comes out of the rules the same; so the rules are idempotent |
| Catalog.AdaptiveBaseSpec | scripts/model_variants.py:176-191 | an adaptive Claude base asks for medium or high effort, by its name, and requires a token limit |
| Catalog.LimitIsRequired | scripts/model_variants.py:176-191 | a Claude base that needs a token limit requires one, adaptive or not |
| Catalog.GeminiThinkerSpec | scripts/model_variants.py:236-258 | an unpatched Gemini model asks for thought summaries exactly when it is a chat model and the name it is called by is a thinking one |
| Catalog.ArgonSpec | scripts/model_variants.py:251-258 | Argon gets its limits and, behind the patches people gave it, its request patch exactly once |
| Catalog.CuratedInOrder | scripts/model_variants.py:256-258 | only the rules' own patches are taken out, and the others keep their order |
| Catalog.OnlyNamedModelsAreRuled | scripts/model_variants.py:193-293 | the rules of the other providers replace the patches of the models they name, set the limits of one, and leave every other model alone |
| Catalog.RefreshedAgain | scripts/update_models.py:320-365 | refreshing a model against its own output gives, field by field, what the first refresh or the rules gave |
| Catalog.RefreshedSpec | scripts/update_models.py:631-651 | field by field: a card wins, then the registry, then what people filled in; a confirmed capability outlives a silent registry; nothing else is kept |
| Catalog.DefaultsSpec | scripts/update_models.py:320-365 | an OpenAI chat model whose endpoint and patches nobody has set gets the Responses endpoint exactly when the registry lists it there, and the summary patch exactly when it then reasons |
| Catalog.RegistryIsFetched | scripts/update_models.py:523-531 | every registry model is refreshed, but a Bedrock model whose US twin is listed too |
| Catalog.FixedPoint | scripts/update_models.py:795-854 | regeneration fed its own output with the same registry data returns the same list |
| Catalog.CuratedSurvives | scripts/update_models.py:810-833 | every name the generator does not own survives, as refreshed if the registry has it and as it was otherwise, under its rules, and no variant takes its place |
| Catalog.HumanChoicesSurvive | scripts/update_models.py:631-651 | a field only people fill in, patches included, comes out as it was, but for what the rules make of it, when the registry and the cards say nothing of it |
| Catalog.RegenerateVariants | scripts/update_models.py:843-854 | the loop yields every base under its rules, every variant of every base, and nothing else |
| Catalog.RebuiltVariants | scripts/model_variants.py:150-173 | every plan of every base is in the catalog under the base's name, a colon and its suffix, with the base's real name or else its name, the base's window, prices, vision, tools and endpoint, the plan's output limit, required limit and patch, and no other field |
| Catalog.ClaudePlans | scripts/model_variants.py:296-325 | a Claude base has two effort aliases that ask for the effort in their names, or one thinking alias with the fixed output limit |
| Catalog.OpenAiPlans | scripts/model_variants.py:375-396 | an OpenAI base has one alias for each of its listed efforts, in order, asking for that effort |
| Catalog.BedrockPlans | scripts/model_variants.py:352-372 | a Bedrock Claude base has one thinking alias with the fixed output limit unless it thinks by itself, and no other provider's models have variants |
| Catalog.RegenerateProviderModels | scripts/update_models.py:795-807 | the list returned is the rebuilt catalog in sorted order; without registry data it is the shipped one |
| ReplaceDir.OverlayOnNothing | xtask/src/main.rs:346-371 | copying over nothing gives exactly the source tree |
| ReplaceDir.FileSystem.CopyDirRecursive | xtask/src/main.rs:346-371 | success means the target is the source laid over what was there; failure or a crash leaves everything else alone |
| ReplaceDir.FileSystem.Stage | xtask/src/main.rs:281-290 | staging never touches the destination, and success means the staging directory is exactly the source |
| ReplaceDir.FileSystem.Swap | xtask/src/main.rs:292-325 | at every step the destination is as before, absent with the old tree at the backup, or the new tree; a swap that fails over an install leaves it in place unless a rename of the backup to the destination was tried and failed; what stays at staging or backup is what a failed removal left |
| ReplaceDir.FileSystem.Replace | xtask/src/main.rs:268-326 | at every step and crash the destination is absent, wholly old or wholly new; with one at the start a complete tree stays at the destination or the backup, and a successful run over a saved install keeps that exactly when the destination existed; a run that fails over an install leaves it in place unless renaming it back was tried and failed; a run that fails without one and did not stop in the middle of removing the backup has lost the old install exactly when it had cleared the backup; success means the destination is the source; without outside faults a run succeeds exactly when no file is in the way at staging or backup |
| FaultInjection.NextKeepsInv | crates/harnx-a2a-server/src/fault_injection.rs:105-161 | every atomic action keeps the gates' accounts: each gate armed or held by its own visit, permits equal drops less passes; the reached value never falls |
| FaultInjection.NoPauseIsLost | crates/harnx-a2a-server/src/fault_injection.rs:105-161 | under every interleaving a gate is taken by the visit it was armed for and no other, and that visit passes only after the guard is dropped |
| FaultInjection.DroppingReleases | crates/harnx-a2a-server/src/fault_injection.rs:157-161 | once its guard is dropped, a visit waiting at its gate can pass |
| FaultInjection.VisitsAreNumbered | crates/harnx-a2a-server/src/fault_injection.rs:124-141 | visits are numbered 1, 2, ... without gap or repeat, and the reached value names a visit that has announced itself |
| FaultInjection.FaithfulUnless | crates/harnx-a2a-server/src/fault_injection.rs:124-156 | a wait for a visit that is let through finds it announced after an action if and only if the action is not a later visit announcing itself first |
| FaultInjection.ReachedIsFaithfulUnlessOvertaken | crates/harnx-a2a-server/src/fault_injection.rs:124-156 | over any run: at every moment such a wait finds the visit announced exactly when no later visit overtook it |
| FaultInjection.ReachedCanOvertake | crates/harnx-a2a-server/src/fault_injection.rs:149-156 | the value waited for can be passed while the armed visit is still before its gate |
| FaultInjection.Point.Pause | crates/harnx-a2a-server/src/fault_injection.rs:107-122 | arming succeeds exactly when nothing is armed and the visit is still to come, and otherwise changes nothing |
| FaultInjection.Point.Count | crates/harnx-a2a-server/src/fault_injection.rs:126 | the counter increment gives the call the next visit number |
| FaultInjection.Point.TakeGate | crates/harnx-a2a-server/src/fault_injection.rs:127-134 | the critical section hands over the armed gate to its visit only |
| FaultInjection.Point.SendReached | crates/harnx-a2a-server/src/fault_injection.rs:135-137 | announcing never lowers the reached value |
| FaultInjection.Point.Acquire | crates/harnx-a2a-server/src/fault_injection.rs:138-140 | a call with a gate passes by using up one permit, and waits without one |
| FaultInjection.Point.Drop | crates/harnx-a2a-server/src/fault_injection.rs:157-161 | dropping the guard gives its gate one permit |
| Subscriber.AwakeUnless | web/src/RuntimeSessionSubscriber.tsx:32-62 | pending work of a live effect keeps its own timer armed after an event if and only if the event is not a set-up under an armed timer |
| Subscriber.NoUpdateIsLost | web/src/RuntimeSessionSubscriber.tsx:32-92 | in every run without such a set-up, an update not yet served has a timer that starts a refresh serving it, once the refresh in flight has ended and the thread is idle |
| Subscriber.OneRefreshAtATime | web/src/RuntimeSessionSubscriber.tsx:35-56 | at most one refresh is in flight, and unserved updates are marked pending |
| Subscriber.StartsOnlyWhenIdle | web/src/RuntimeSessionSubscriber.tsx:35-56 | a refresh starts exactly when the live effect's timer fires with work pending, no refresh in flight and the thread idle, and serves every update so far; a timer that fires while busy keeps the work and is armed again |
| Subscriber.SetupUnderStaleTimerIsLost | web/src/RuntimeSessionSubscriber.tsx:32-62 | after such a set-up no timer or refresh end ever starts a refresh, and the update stays unserved |
| Subscriber.LostWakeUpIsReachable | web/src/RuntimeSessionSubscriber.tsx:52-83 | such a set-up can come about |
| Subscriber.Component.ScheduleRefresh | web/src/RuntimeSessionSubscriber.tsx:32-35 | marks work pending and arms a timer unless one is armed |
| Subscriber.Component.SetUp | web/src/RuntimeSessionSubscriber.tsx:62 | an effect's set-up asks for a refresh |
| Subscriber.Component.CleanUp | web/src/RuntimeSessionSubscriber.tsx:76-83 | teardown disposes of the effect and of the armed timer |
| Subscriber.Component.SessionUpdated | web/src/RuntimeSessionSubscriber.tsx:68 | an update asks the live effect for a refresh |
| Subscriber.Component.Fire | web/src/RuntimeSessionSubscriber.tsx:35-46 | the timer callback drops out for a disposed effect, re-arms while busy, and otherwise starts one refresh |
| Subscriber.Component.Finish | web/src/RuntimeSessionSubscriber.tsx:52-55 | the tail of a refresh re-arms for its own effect if work is pending |
| InputMap.SizeLimitedWriter.AddBytes | crates/harnx-a2a-server/src/input_map.rs:110-123 | bytes are counted exactly while they fit, no addition overflows, and a refusal counts nothing and lasts |
| InputMap.SizeLimitedWriter.WriteAll | crates/harnx-a2a-server/src/input_map.rs:126-135 | whatever the chunks, they are accepted exactly when their concatenation fits |
| InputMap.PartRenderState.BlockCounter | crates/harnx-a2a-server/src/input_map.rs:170-193 | the counted banner and fences have exactly the length of the block rendered around nothing |
| InputMap.PartRenderState.RenderDataPart | crates/harnx-a2a-server/src/input_map.rs:195-215 | the counted bytes are the length of the block then rendered; too large comes before unprintable |
| InputMap.PartRenderState.RenderRawPart | crates/harnx-a2a-server/src/input_map.rs:217-247 | images go to the media list uncharged; other files are refused for their type, then their size, then their encoding, or charged what they render to |
| InputMap.AcceptedExactlyWithinTheLimit | crates/harnx-a2a-server/src/input_map.rs:138-290 | a message of supported, valid parts is accepted exactly when its data and inline-file blocks sum to at most the limit |
| InputMap.FaultMeans | crates/harnx-a2a-server/src/input_map.rs:195-247 | what each refusal means: an unsupported type before size, size before content |
| InputMap.BlockIsItsLines | crates/harnx-a2a-server/src/input_map.rs:280-290 | a block is the banner, the fence with its language, the content, the fence and the closing banner, each on lines of its own |
| InputMap.JoinInParts | crates/harnx-a2a-server/src/input_map.rs:84-85 | the separator stands between any two texts joined and nowhere else |
| InputMap.PartsToInput | crates/harnx-a2a-server/src/input_map.rs:75-92 | a message is accepted exactly when no part is at fault at the budget left to it; the text is the renderings joined by blank lines, the media are the images in order, and a refusal is the first fault |
| AttemptLedger.AttributedToItsAttempt | scripts/probe_reasoning_summaries.py:363-391 | an event is attributed exactly when it belongs to one attempt: by its bound response id, else as the only open match, else as trailing usage to the latest match |
| AttemptLedger.MatchesExactly | scripts/probe_reasoning_summaries.py:321-326 | an event fits an attempt unless both name a protocol and differ, or both name a model and the event's is neither the attempt's nor a dated version of it |
| AttemptLedger.AttributionIsSound | scripts/probe_reasoning_summaries.py:339-402 | all events of one response are in one attempt, which speaks their protocol, and at most one probe attempt per request identity is open |
| AttemptLedger.AttributionConserves | scripts/probe_reasoning_summaries.py:339-402 | attributed events are wire events of the trace, and with the unassigned ones they are as many |
| AttemptLedger.AttemptsAreTheRequests | scripts/probe_reasoning_summaries.py:339-402 | there is one attempt for each request of the trace, in order, closed exactly when a response or completion was attributed to it or a later probe of its identity began |
| AttemptLedger.AcceptedMeansReplayed | scripts/probe_reasoning_summaries.py:415-449 | a probe is accepted exactly when it exited with 0 through the right client, some request carried a tool result, and each that did has a completion event attributed to it |
| AttemptLedger.Ledger.AddRequestEntry | scripts/probe_reasoning_summaries.py:347-353 | a probe request closes the earlier ones of its identity and opens its own attempt |
| AttemptLedger.Ledger.CloseAll | scripts/probe_reasoning_summaries.py:355-361 | closes exactly the probe attempts of the identity |
| AttemptLedger.Ledger.FindCandidates | scripts/probe_reasoning_summaries.py:363-375 | one pass over the attempts, with the fallbacks in order, finds the candidates about which attribution is proved exact |
| AttemptLedger.Ledger.AddWireEvent | scripts/probe_reasoning_summaries.py:377-391 | one event is handed to its attempt or counted as unassigned |
| AttemptLedger.AttributeEvents | scripts/probe_reasoning_summaries.py:394-402 | reading a trace through the ledger is the attribution the lemmas are about |
| Exports.ResolveExports | crates/harnx-a2a-server/src/exports.rs:66-103 | resolution succeeds exactly when every spec resolves and no two exports share a lookup key; otherwise the first fault is named: the first spec that does not resolve, or the first whose export claims a taken key, with the two public names |
| Exports.LookupFinds | crates/harnx-a2a-server/src/exports.rs:267-271 | with disjoint keys the linear lookup finds the export that owns the name |
| Exports.BuildRouters | crates/harnx-a2a-server/src/routes.rs:71-84 | the dispatcher's map has each export's keys, each leading to an export that has it |
| Exports.DispatcherAgreesWithLookup | crates/harnx-a2a-server/src/routes.rs:71-93 | after a successful resolution the dispatcher and the linear lookup agree on every name |
| Exports.PublishedNamesRouteBack | crates/harnx-a2a-server/src/exports.rs:200-231 | an export publishes its alias, or without one its agent's sanitised name, and the names that lead to it are exactly that, the agent name and the sanitised name |
| Exports.PrefixIsStripped | crates/harnx-a2a-server/src/routes.rs:95-107 | what is passed on is exactly the rest of the raw path after the export segment, and the query is untouched |
| Compat.NormalizeBlocking | crates/harnx-a2a-server/src/compat.rs:157-180 | removing and inserting keys one at a time, with the two immediate flags checked in order, accepts and refuses the configurations whose properties are proved and leaves the same one |
| Compat.BlockingKeepsIntent | crates/harnx-a2a-server/src/compat.rs:157-180 | a configuration is refused exactly when `blocking` contradicts itself or an immediate flag; otherwise the intent is kept and said once, and other members are untouched |
| Compat.NormalizeKeepsIntent | crates/harnx-a2a-server/src/compat.rs:182-196 | an accepted send request still says whether its caller waits |
| Compat.NormalizeRefusesExactly | crates/harnx-a2a-server/src/compat.rs:117-228 | a request is refused exactly when its params are neither an object nor a list, or it is a send whose configuration contradicts itself |
| Compat.NormalizeIsIdempotent | crates/harnx-a2a-server/src/compat.rs:117-228 | normalising a request twice is normalising it once |
| Compat.LegacyMeansCanonical | crates/harnx-a2a-server/src/compat.rs:150-228 | a legacy request and its canonical form are normalised to the same result, whichever of the method name, the send configuration, the message role and the list status it spells the legacy way, one or all |
| Compat.CanonicalStays | crates/harnx-a2a-server/src/compat.rs:117-228 | a request in canonical spelling is accepted unchanged |
| Compat.EnumSpec | crates/harnx-a2a-server/src/compat.rs:219-228 | a text that writes a known value, in any case, with dashes for underscores, with or without the prefix, becomes its canonical spelling; any other text stays |
| Compat.NormalizeFrame | crates/harnx-a2a-server/src/compat.rs:150-228 | nothing outside the method, the configuration's blocking keys, the message role and the list status changes, at any depth |
| JiraConfig.ScalarIsReadExactly | example_config/jira-auth-hook.py:94-100 | a one-line value is read back as written exactly when it has no outer whitespace and no enclosing quotes |
| JiraConfig.QuotedIsReadExactly | example_config/jira-auth-hook.py:94-100 | a value in quotes of either kind is read back exactly, whatever it holds |
| JiraConfig.Parser.Consume | example_config/jira-auth-hook.py:219-236 | one line updates the parser's state as the line step says |
| JiraConfig.ParseText | example_config/jira-auth-hook.py:253-264 | the builtin parser over a text is the line step over its lines |
| JiraConfig.ConfigRoundTrip | example_config/jira-auth-hook.py:327-353 | parsing the synthetic config gives back the profile key and exactly the fields written |
| JiraConfig.AnyConfigIsRead | example_config/jira-auth-hook.py:180-264 | any profiles, however indented and with blank lines and comments anywhere, come back in order with the profile key, whether it stands before or behind them |
| JiraConfig.DedentEndsTheList | example_config/jira-auth-hook.py:208-236 | a dedented line that is no item ends the list: nothing behind it, however deep, is taken for a profile's |
| JiraConfig.AnyConfigIsLoaded | example_config/jira-auth-hook.py:103-126 | from any such config the first profile of the key is loaded, and it is refused exactly when the key is empty or no profile has it |
| JiraConfig.WrittenProfileIsFound | example_config/jira-auth-hook.py:103-126 | the profile is then found exactly when the key is its cloud id, a colon and its account id |

## Left out

- Network, timers and I/O: fetches, `EventSource`, NATS, subprocesses and file calls are events, results or nondeterministic failures; timers fire no earlier than set and a due round fires before the clock moves past it.
- Responses delivered after an abort, and a server list that changes during paging.
- HttpClient: the fetch loop is one transition per settlement, because its iterations interleave with those of other fetches; error classification and timeouts inside one attempt are the choice of event.
- Listeners: `CoordinatorObject.Coordinator` logs each notification with the state found; since every operation is then complete, what the listeners do is performed after it (`CoordinatorObject.Coordinator.PerformCall`).
- Session titles, freshness marks and error banners of the session list.
- The decoding of untyped events into the note reducer's typed ones, and the wording of notes. An event type naming a method of `Object.prototype`, such as `toString`, is found by the lookup at `web/src/subAgentNotes.ts:604` and replaces the state by something that is none; the model has only the table's own types and takes any other as unrecognised.
- ReplaceDir: file contents are values, and symbolic links, permissions and other processes writing to the same directories do not occur; a crash is a point of the recorded trace.
- The task stream's bounded receiver: a lag or a closed channel is one kind of interruption.
- FaultInjection: the visit counter does not wrap around.
- Catalog: models are values, since the scripts copy before they change, so aliasing is not captured; regular expressions on names are parameters and request patches symbolic constants; a `None` field is an absent one, as rendered; filtering of registry entries, price scaling and YAML rendering.
- InputMap: JSON printing is a list of chunks and a verdict, base64 and UTF-8 validation are parameters, and metadata logging is absent.
- AttemptLedger: trace entries carry what the script reads from their bodies; reports, thought counts and durations.
- Exports: loading and validating one agent is a parameter, and the order of an export's lookup keys is absent; the URI library's own syntax errors.
- Compat: JSON values are immutable, so update in place and member order are not captured; version headers, body limits and serialisation.
- JiraConfig: PyYAML, `yq`, the token lookup and the environment; profiles are maps without order.
- React components, access rules, identity, the runner, the store and the remaining reducers and caches, which would add mostly easy members.
