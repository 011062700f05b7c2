# PlanMyDay frontend core in Dafny

This project models the state-keeping logic of the PlanMyDay web frontend: a
day planner with a kanban board of tasks, an AI assistant, a voice agent that
turns speech into tasks, cached dashboard panels (weather, NASA picture of the
day, performance insights), an AI schedule generator, the add-task card, and a
car game shown while the AI works. Each React component appears here in the
form its code takes:

- Components whose handlers update state step by step become classes. Their
  React state and refs are fields, and each event handler is a method.
  - Asynchronous handlers are split into a start method and a completion
    method.
  - Network calls are appended to a `requests` or `events` log.
  - localStorage is a `map` field.
- Pure expressions (filters, maps, classifiers, payload builders) become
  functions. They have contracts, and lemmas relate them.

Modules, one per source file:

- `TaskKanban`, `KanbanAI`, `VoiceAgent`, `PerformanceInsights`, `WeatherDisplay`,
  `ApodDisplay`, `AIGenerator`, `AddTaskForm`, `CarGame`, `GameModal`,
  `GameContext`, `TimeOfDay`;
- `LocalCache` (the `{data, timestamp}` entries three panels share);
- `Text` (JavaScript `trim`, `toLowerCase`, `includes`, number printing);
- `Common` (`Option`, `Result`).

Properties proved include:

- **Drag and drop** keeps every card, card identity and the order of the
  other cards, and it places the moved card where the drop indicator says.
- **The nearest drop indicator** is the one with the smallest anchor strictly
  below the pointer.
- **The time-input pattern** accepts exactly the clock times 0:00 to 23:59.
- **Cache entries** are used for exactly 24 hours. The insights cache and the
  panel caches disagree only at exactly 24 hours and for entries without a
  timestamp.
- **Chart data** keeps exactly the positive entries, in order. Efficiency is
  the exactly rounded percentage.
- **The voice agent** rebuilds its transcript from the results at and after
  `resultIndex` only, so final text reported before that index is dropped
  (see "## Findings"). Its batch creation sends exactly the approved tasks, in
  queue order. A single creation removes exactly its task.
- **The custom-prompt remove** deletes exactly one index. Only non-blank
  prompts are sent.
- **The add-task card** never shows the form and the voice agent together.
- **Every collision in a game frame** calls `endGame` once. A new high score
  is saved once per such call.

Three rules of the code that a reader might not expect:

- **Nearest drop indicator.** An indicator qualifies only when its anchor
  lies strictly below the pointer (`offset < 0`), so an anchor exactly at the
  pointer does not win.
- **Game-end score for a new high score.** `CarGame.endGame` awaits the high
  score save before calling `onGameEnd`. By then the frame that ended the game
  has already counted one more point. So the score reported for a new high
  score is one more than the score saved (`CarGame.Game.SaveSettled`).
- **The game-complete callback.** `openGame` hands its callback to a React
  state setter, which runs a function argument at once as an updater and
  stores its return value. A `(score) => void` callback therefore runs when
  the game opens and leaves no callback stored
  (`GameContext.GameProvider.OpenGame`, `GameContext.VoidCallbackIsDropped`).

## Model

| member | source | states |
|---|---|---|
| TaskKanban.CardsFromTasks | frontend/src/components/TaskKanban.tsx:72-84 | one card per server task, same order; each card's id, title, duration, importance and time come from its task; the column is the status, or `todo` when it is missing or empty |
| TaskKanban.FindIndex | frontend/src/components/TaskKanban.tsx:417 | the index of the first card with the id, or -1 exactly when no card has it |
| TaskKanban.RemoveId | frontend/src/components/TaskKanban.tsx:410 | the filter drops exactly the cards carrying the id: the length falls by their count |
| TaskKanban.RemoveIdMembers | frontend/src/components/TaskKanban.tsx:410 | a card survives the filter if and only if it was there and has another id |
| TaskKanban.ColumnView | frontend/src/components/TaskKanban.tsx:484 | never longer than the list, and every card shown belongs to the column |
| TaskKanban.ColumnViewMembers | frontend/src/components/TaskKanban.tsx:484 | a column shows a card if and only if the card is in the list and belongs to that column |
| TaskKanban.SpliceIndex | frontend/src/components/TaskKanban.tsx:420 | `splice`'s start: clamped to the list, negative values counted from the end |
| TaskKanban.SpliceInsert | frontend/src/components/TaskKanban.tsx:420 | inserting keeps the prefix and suffix around the splice index and adds one element |
| TaskKanban.RemoveIdMultiset | frontend/src/components/TaskKanban.tsx:410 | the filter removes exactly the id's occurrences from the multiset of ids |
| TaskKanban.Move | frontend/src/components/TaskKanban.tsx:404-421 | no move exactly for a drop on itself or an unknown card; otherwise the list without the card, plus the card once |
| TaskKanban.MovePosition | frontend/src/components/TaskKanban.tsx:412-420 | the insertion point lies within the filtered list |
| TaskKanban.MoveShape | frontend/src/components/TaskKanban.tsx:404-421 | a successful move is the filtered list with the moved card (new column, other fields kept) inserted at the end or before the `before` card |
| TaskKanban.MoveKeepsOthersInOrder | frontend/src/components/TaskKanban.tsx:410-421 | removing the moved id again gives the list without the card: every other card keeps its relative order |
| TaskKanban.MoveKeepsCardFields | frontend/src/components/TaskKanban.tsx:406-408 | after the move exactly one card has the moved id; it is the old card with only its column changed; every other card was there before |
| TaskKanban.CountIdMultiset | frontend/src/components/TaskKanban.tsx:410 | the multiset of ids counts an id exactly as often as cards carry it |
| TaskKanban.MoveKeepsIds | frontend/src/components/TaskKanban.tsx:404-421 | moving a card whose id is unique keeps the length and the multiset of ids |
| TaskKanban.MovePlacement | frontend/src/components/TaskKanban.tsx:412-421 | with the end sentinel the card becomes the last one; with a present `before` id it lands immediately before that card |
| TaskKanban.MoveKeepsOtherColumns | frontend/src/components/TaskKanban.tsx:404-421 | every column other than the target shows the same cards in the same order, except that the card leaves its old column |
| TaskKanban.RemoveIdIdempotent | frontend/src/components/TaskKanban.tsx:171 | filtering the same id twice is filtering it once |
| TaskKanban.DeleteKeepsOrder | frontend/src/components/TaskKanban.tsx:171 | deletion distributes over concatenation and keeps a card with another id |
| TaskKanban.NearestIndicator | frontend/src/components/TaskKanban.tsx:448-469 | the chosen index always names one of the indicators |
| TaskKanban.StepClosest | frontend/src/components/TaskKanban.tsx:452-461 | a step keeps the accumulator or takes this indicator when its anchor lies below the pointer, and stays in range |
| TaskKanban.ReduceClosest | frontend/src/components/TaskKanban.tsx:451-466 | the reduce only ever moves to an index in range |
| TaskKanban.StepKeepsClosest | frontend/src/components/TaskKanban.tsx:452-461 | one reduce step keeps the accumulator the closest qualifying indicator seen so far |
| TaskKanban.ReduceFindsClosest | frontend/src/components/TaskKanban.tsx:451-466 | the finished reduce holds the closest qualifying indicator of the whole list |
| TaskKanban.NearestIsClosestBelow | frontend/src/components/TaskKanban.tsx:448-469 | with some anchor strictly below the pointer, the chosen indicator has the smallest such anchor (the first on ties); with none, it is the last indicator |
| TaskKanban.ColumnIndicatorLabels | frontend/src/components/TaskKanban.tsx:503-506 | a column renders one indicator per card, labelled with the card's id, then the end indicator `-1` |
| TaskKanban.RenderedIndicatorsResolve | frontend/src/components/TaskKanban.tsx:401 | for the rendered indicators, the resolved `before` is a card of the column or the end sentinel (see also line 617) |
| TaskKanban.MatchesTimePattern | frontend/src/components/TaskKanban.tsx:538 | a matching value has four or five characters, a colon third from the end, and digits elsewhere |
| TaskKanban.TimePatternIffClockTime | frontend/src/components/TaskKanban.tsx:538 | the time regex accepts a string exactly when it is `H:MM` or `HH:MM` for a time from 0:00 to 23:59 |
| TaskKanban.TimePatternExamples | frontend/src/components/TaskKanban.tsx:538 | `9:30`, `23:59` and `09:05` pass; `24:00`, `9:60`, `930` and `abc` fail |
| TaskKanban.ScheduledTimeUpdate | frontend/src/components/TaskKanban.tsx:536-545 | a valid time or the empty string is sent; anything else sends nothing |
| TaskKanban.CreatePayloadFor | frontend/src/components/TaskKanban.tsx:695-703 | no request for a blank title; otherwise the trimmed title, the column as status, and the time only when one was entered |
| TaskKanban.OptimisticCard | frontend/src/components/TaskKanban.tsx:708-715 | the optimistic card has the temporary id, the trimmed title, the form's column, duration and importance, and the entered time or none when the field is empty |
| TaskKanban.OptimisticCardMatchesPayload | frontend/src/components/TaskKanban.tsx:697-715 | whenever a create request is sent, the optimistic card carries its title, duration, importance and time, and the request's status is the card's column |
| TaskKanban.Board.constructor | frontend/src/components/TaskKanban.tsx:62 | the board starts with no cards and no requests |
| TaskKanban.Board.Load | frontend/src/components/TaskKanban.tsx:72-84 | the list becomes the server's tasks as cards |
| TaskKanban.Board.DragEnd | frontend/src/components/TaskKanban.tsx:392-426 | a drop on the dragged card itself, or of an unknown card, changes nothing; otherwise the list becomes the move's result and one status update is sent |
| TaskKanban.Board.DeleteCard | frontend/src/components/TaskKanban.tsx:169-172 | one delete request is sent and the card leaves the list |
| TaskKanban.Board.BurnBarrelDrop | frontend/src/components/TaskKanban.tsx:642-647 | the second filter changes nothing: the list is that of one delete |
| TaskKanban.Board.CreateCard | frontend/src/components/TaskKanban.tsx:695-715 | one create request is sent and the optimistic card is appended at the end |
| TaskKanban.Board.SubmitScheduledTime | frontend/src/components/TaskKanban.tsx:536-545 | a request exactly when the time update exists, and the list is unchanged |
| TaskKanban.AddCardForm.constructor | frontend/src/components/TaskKanban.tsx:671-677 | the column's form starts with the default draft and hidden |
| TaskKanban.AddCardForm.Open | frontend/src/components/TaskKanban.tsx:830 | the form shows |
| TaskKanban.AddCardForm.Edit | frontend/src/components/TaskKanban.tsx:739-793 | the inputs replace the draft |
| TaskKanban.AddCardForm.Cancel | frontend/src/components/TaskKanban.tsx:724-727 | the draft resets to the defaults and the form hides |
| TaskKanban.AddCardForm.Submit | frontend/src/components/TaskKanban.tsx:692-722 | a blank title changes nothing; otherwise one create request, the optimistic card appended, the draft reset and the form hidden |
| KanbanAI.GetTimeOfDay | frontend/src/components/KanbanAI.tsx:83-90 | each period holds exactly for its hour range (before 6, 6-11, 12-16, 17-20, 21 on) |
| KanbanAI.GetTimeContext | frontend/src/components/KanbanAI.tsx:92-110 | weekend exactly on days 0 and 6, working hours exactly 9-16, business day exactly on days 1-5 |
| KanbanAI.WeekendIffNotBusinessDay | frontend/src/components/KanbanAI.tsx:106-108 | on a real weekday, weekend is the negation of business day; working hours fall in the morning or afternoon |
| KanbanAI.DictationExamples | frontend/src/components/KanbanAI.tsx:199-203 | "Please DICTATE", "give me an Overview" and "read my tasks now" are dictation commands |
| KanbanAI.NotDictationExample | frontend/src/components/KanbanAI.tsx:199-203 | "what is next" is not a dictation command |
| KanbanAI.IsDictationCommand | frontend/src/components/KanbanAI.tsx:199-203 | a command is at least as long as the shortest phrase, `dictate` |
| KanbanAI.DictationIgnoresCase | frontend/src/components/KanbanAI.tsx:199 | a transcript is a command exactly when its lower-cased form is |
| KanbanAI.DictationSurvivesSurroundingWords | frontend/src/components/KanbanAI.tsx:199-203 | words before and after a command keep it a command |
| KanbanAI.ContextualQuestion | frontend/src/components/KanbanAI.tsx:211-212 | the question is the time-context prefix followed by the trimmed text, and nothing else |
| KanbanAI.QuickQuestions | frontend/src/components/KanbanAI.tsx:641-676 | the time-specific questions (two, or one at night), the weekend question exactly on weekends, the after-work one exactly on business days outside working hours, then the seven base questions |
| KanbanAI.Assistant.constructor | frontend/src/components/KanbanAI.tsx:55-63 | empty question, the dictate tab, and the clock read at mount |
| KanbanAI.Assistant.Tick | frontend/src/components/KanbanAI.tsx:66-72 | the clock updates and nothing else changes |
| KanbanAI.Assistant.SetQuestion | frontend/src/components/KanbanAI.tsx:521 | the question box takes the text (see also line 682) |
| KanbanAI.Assistant.AskQuestion | frontend/src/components/KanbanAI.tsx:278-289 | a blank question sends nothing; otherwise one Ask with the current time context before the trimmed question |
| KanbanAI.Assistant.OnVoiceResult | frontend/src/components/KanbanAI.tsx:193-221 | the transcript fills the box; a dictation command switches tabs and requests a dictation; otherwise a non-blank transcript is asked with the recognizer's stale clock |
| KanbanAI.Assistant.RequestDictation | frontend/src/components/KanbanAI.tsx:291-293 | one Dictate request |
| KanbanAI.Assistant.SelectTab | frontend/src/components/KanbanAI.tsx:337-345 | the tab changes |
| KanbanAI.AskedQuestionsAreNonBlank | frontend/src/components/KanbanAI.tsx:278-289 | every question sent is the context prefix followed by a non-blank trimmed text |
| VoiceAgent.ToggleApproval | frontend/src/components/VoiceAgent.tsx:265-273 | same length; the task with the id has its approval flipped; all else is unchanged |
| VoiceAgent.ToggleTwice | frontend/src/components/VoiceAgent.tsx:265-273 | toggling twice restores the queue |
| VoiceAgent.RemoveReviewTask | frontend/src/components/VoiceAgent.tsx:276-278 | the queue never grows |
| VoiceAgent.RemoveReviewTaskMembers | frontend/src/components/VoiceAgent.tsx:276-278 | a task stays exactly when it has another id |
| VoiceAgent.RemoveReviewTaskConcat | frontend/src/components/VoiceAgent.tsx:276-278 | removal distributes over concatenation: others keep their order |
| VoiceAgent.RemoveAbsentReviewTask | frontend/src/components/VoiceAgent.tsx:276-278 | removing an absent id changes nothing |
| VoiceAgent.ApplyEditChangesOneField | frontend/src/components/VoiceAgent.tsx:285 | an edit changes its own field and no other |
| VoiceAgent.EditReviewTask | frontend/src/components/VoiceAgent.tsx:281-289 | only the task with the id is edited; ids and flags are kept |
| VoiceAgent.MarkProcessing | frontend/src/components/VoiceAgent.tsx:243-249 | the task with the id becomes approved and processing; others are unchanged |
| VoiceAgent.ApprovedTasks | frontend/src/components/VoiceAgent.tsx:70 | never longer than the queue; a task is in it exactly when it is in the queue and approved (see also line 256) |
| VoiceAgent.ApprovedTasksKeepsOrder | frontend/src/components/VoiceAgent.tsx:70 | the filter commutes with concatenation and keeps a single task exactly when it is approved, which fixes order and multiplicity |
| VoiceAgent.CreateRequests | frontend/src/components/VoiceAgent.tsx:47-79 | one create request per task, in order, carrying its title, duration, importance and scheduled time, with status `todo` |
| VoiceAgent.CreateRequestsConcat | frontend/src/components/VoiceAgent.tsx:71-79 | the requests for two lists in a row are those of each, in order |
| VoiceAgent.NewReviewTasks | frontend/src/components/VoiceAgent.tsx:209-214 | one review task per extracted task, with id `task-<now>-<index>`, neither approved nor processing |
| VoiceAgent.SplitKeepsAllText | frontend/src/components/VoiceAgent.tsx:108-120 | the final part is the text of the final results and the interim part that of the others, in order; every result goes to exactly one of them; with only final results the final part is all the text |
| VoiceAgent.FinalsAreFinalText | frontend/src/components/VoiceAgent.tsx:111-118 | the final part is the text of the final results, in order |
| VoiceAgent.InterimsAreInterimText | frontend/src/components/VoiceAgent.tsx:111-118 | the interim part is the text of the non-final results, in order |
| VoiceAgent.SplitPartitions | frontend/src/components/VoiceAgent.tsx:111-118 | the final and non-final results together are exactly the results |
| VoiceAgent.AllFinalIsAllText | frontend/src/components/VoiceAgent.tsx:111-118 | with only final results the final part is all the text and the interim part is empty |
| VoiceAgent.Finals | frontend/src/components/VoiceAgent.tsx:111-115 | the final text is never longer than all the text |
| VoiceAgent.Interims | frontend/src/components/VoiceAgent.tsx:111-117 | the interim text is never longer than all the text |
| VoiceAgent.Reported | frontend/src/components/VoiceAgent.tsx:111 | the results from `resultIndex` on, in order, and none when the index is past the end |
| VoiceAgent.EarlierFinalTextDropped | frontend/src/components/VoiceAgent.tsx:107-121 | an event reporting index 1 of a session whose first result is final rebuilds the transcript without that result's text |
| VoiceAgent.FinalsConcat | frontend/src/components/VoiceAgent.tsx:111-115 | the final text of two runs in a row is that of each, in order |
| VoiceAgent.SessionTranscriptKeepsFinals | frontend/src/components/VoiceAgent.tsx:107-121 | a transcript rebuilt from the whole session starts with all final text recognized so far, however many results follow |
| VoiceAgent.CountdownNext | frontend/src/components/VoiceAgent.tsx:165-171 | the timer never goes below 0, falls while positive, and counts down by one above 1 |
| VoiceAgent.CountdownFromSixty | frontend/src/components/VoiceAgent.tsx:159-172 | from 60 the timer shows 60 - n after n seconds and stays at 0 from the 60th second |
| VoiceAgent.Agent.constructor | frontend/src/components/VoiceAgent.tsx:26-31 | not listening, empty transcript, not processing, no review tasks, timer at 0 |
| VoiceAgent.Agent.StartListening | frontend/src/components/VoiceAgent.tsx:141-175 | refused without support or API; otherwise listening, empty transcript, 60 seconds left, and the transcript captured for the session |
| VoiceAgent.Agent.OnResult | frontend/src/components/VoiceAgent.tsx:107-121 | the transcript is the final pieces from `resultIndex` on, followed by the interim ones |
| VoiceAgent.Agent.ProcessTranscript | frontend/src/components/VoiceAgent.tsx:198-203 | a blank transcript does nothing; otherwise processing starts and the trimmed transcript is sent |
| VoiceAgent.Agent.StopWith | frontend/src/components/VoiceAgent.tsx:178-195 | listening stops, the timer shows 0, and extraction runs exactly when the closure's transcript is not blank |
| VoiceAgent.Agent.StopListening | frontend/src/components/VoiceAgent.tsx:178-195 | the stop button stops with the current transcript |
| VoiceAgent.Agent.OnRecognitionError | frontend/src/components/VoiceAgent.tsx:123-127 | an error stops with the transcript of the session's start |
| VoiceAgent.Agent.CountdownTick | frontend/src/components/VoiceAgent.tsx:164-172 | above 1 the timer counts down; at 1 or below the session stops with its captured transcript and shows 0 |
| VoiceAgent.Agent.OnExtractionResult | frontend/src/components/VoiceAgent.tsx:207-237 | a non-empty answer appends the new review tasks and clears the transcript; processing ends either way |
| VoiceAgent.Agent.OnExtractionFailed | frontend/src/components/VoiceAgent.tsx:232-237 | processing ends and nothing else changes |
| VoiceAgent.Agent.AddSingleTask | frontend/src/components/VoiceAgent.tsx:241-252 | the task is marked approved and processing, and one create request is sent |
| VoiceAgent.Agent.OnSingleTaskCreated | frontend/src/components/VoiceAgent.tsx:56-61 | the task leaves the queue |
| VoiceAgent.Agent.CreateApprovedTasks | frontend/src/components/VoiceAgent.tsx:255-262 | without an approved task nothing is sent; otherwise one create per approved task in queue order |
| VoiceAgent.Agent.OnBatchCreated | frontend/src/components/VoiceAgent.tsx:83-87 | the queue empties |
| VoiceAgent.Agent.OnToggle | frontend/src/components/VoiceAgent.tsx:265-273 | the queue is toggled |
| VoiceAgent.Agent.OnRemove | frontend/src/components/VoiceAgent.tsx:276-278 | the task is removed |
| VoiceAgent.Agent.OnEdit | frontend/src/components/VoiceAgent.tsx:281-289 | the task's field is edited |
| VoiceAgent.AddSingleThenCreatedRemoves | frontend/src/components/VoiceAgent.tsx:56-61 | adding one task and its creation remove exactly that task, keeping the others in order (see also lines 241-252) |
| VoiceAgent.MarkOnlyInserted | frontend/src/components/VoiceAgent.tsx:243-249 | marking a task whose id no other task has changes that task alone |
| VoiceAgent.RemoveInserted | frontend/src/components/VoiceAgent.tsx:56-61 | removing a task whose id no other task has leaves the tasks around it, in order |
| VoiceAgent.BatchSendsExactlyApproved | frontend/src/components/VoiceAgent.tsx:68-82 | the batch creates a task if and only if it is approved, and sends nothing exactly when no task is |
| VoiceAgent.BatchKeepsQueueOrder | frontend/src/components/VoiceAgent.tsx:68-82 | for a queue split anywhere, the batch sends the requests for the approved tasks of the first part, then those of the second |
| LocalCache.IsExpired | frontend/src/components/WeatherDisplay.tsx:24 | only an entry with a timestamp can expire, and only once the clock is past it |
| LocalCache.MountDecision | frontend/src/components/WeatherDisplay.tsx:20-36 | no entry: nothing; readable, unexpired and with data: used; anything else: removed |
| LocalCache.MountAfterWrite | frontend/src/components/WeatherDisplay.tsx:25-53 | an entry written at t is used at mount time now exactly when now - t <= 24 h, and otherwise removed |
| WeatherDisplay.WeatherPanel.constructor | frontend/src/components/WeatherDisplay.tsx:16 | nothing cached yet, over the given storage |
| WeatherDisplay.WeatherPanel.CheckCacheOnMount | frontend/src/components/WeatherDisplay.tsx:20-36 | the mount decision's effect on cached data and storage |
| WeatherDisplay.WeatherPanel.StartFetch | frontend/src/components/WeatherDisplay.tsx:38-44 | a request exactly when ready and nothing is cached |
| WeatherDisplay.WeatherPanel.OnFetched | frontend/src/components/WeatherDisplay.tsx:47-56 | a truthy answer with nothing cached is stored as a fresh entry and cached |
| WeatherDisplay.WeatherPanel.RefreshStart | frontend/src/components/WeatherDisplay.tsx:59-62 | the entry is removed and one request is sent |
| WeatherDisplay.WeatherPanel.RefreshSucceeded | frontend/src/components/WeatherDisplay.tsx:64-72 | the new data is stored fresh, cached and becomes the query data |
| WeatherDisplay.WeatherPanel.RefreshFailed | frontend/src/components/WeatherDisplay.tsx:74-76 | nothing changes |
| WeatherDisplay.WeatherPanel.Displayed | frontend/src/components/WeatherDisplay.tsx:79 | the cached data when there is some, else the query data |
| WeatherDisplay.FailedRefreshLeavesNoEntry | frontend/src/components/WeatherDisplay.tsx:61-76 | after a failed refresh the next mount finds no entry |
| WeatherDisplay.RefreshThenMount | frontend/src/components/WeatherDisplay.tsx:20-70 | a refreshed entry is used by a later mount exactly within 24 hours, and otherwise removed |
| ApodDisplay.ApodPanel.constructor | frontend/src/components/ApodDisplay.tsx:15 | nothing cached yet, over the given storage |
| ApodDisplay.ApodPanel.ApodData | frontend/src/components/ApodDisplay.tsx:45 | `apodResponse?.data`: present exactly when the response and its data are |
| ApodDisplay.ApodPanel.CheckCacheOnMount | frontend/src/components/ApodDisplay.tsx:19-35 | the shared mount decision under the APOD key |
| ApodDisplay.ApodPanel.StartFetch | frontend/src/components/ApodDisplay.tsx:37-43 | a request exactly when ready and nothing is cached |
| ApodDisplay.ApodPanel.OnFetched | frontend/src/components/ApodDisplay.tsx:45-56 | the response's data, not the wrapper, is cached when truthy and nothing is cached |
| ApodDisplay.ApodPanel.RefreshStart | frontend/src/components/ApodDisplay.tsx:59-61 | the entry is removed and one request is sent |
| ApodDisplay.ApodPanel.RefreshSucceeded | frontend/src/components/ApodDisplay.tsx:64-71 | the data is stored fresh and cached, and the query data becomes `{data}` |
| ApodDisplay.ApodPanel.RefreshFailed | frontend/src/components/ApodDisplay.tsx:73-75 | nothing changes |
| ApodDisplay.ApodPanel.Displayed | frontend/src/components/ApodDisplay.tsx:78 | cached data first, then the response's data |
| PerformanceInsights.GetCachedData | frontend/src/components/PerformanceInsights.tsx:45-62 | data exactly for a readable entry with data, younger than 24 h (strict), and with a timestamp |
| PerformanceInsights.GetCacheAge | frontend/src/components/PerformanceInsights.tsx:76-87 | now - timestamp for a readable entry, NaN without a timestamp, and none otherwise |
| PerformanceInsights.SetCachedData | frontend/src/components/PerformanceInsights.tsx:64-74 | the insights key is added or replaced and every other key keeps its value |
| PerformanceInsights.SetThenGet | frontend/src/components/PerformanceInsights.tsx:45-74 | written data reads back exactly within 24 h, its age is the time since writing, and other keys are untouched |
| PerformanceInsights.FreshnessRulesDiffer | frontend/src/components/PerformanceInsights.tsx:52 | the insights and panel caches disagree on a written entry only at exactly 24 h (see also frontend/src/components/WeatherDisplay.tsx line 25) |
| PerformanceInsights.MissingTimestamp | frontend/src/components/PerformanceInsights.tsx:52-81 | an entry without a timestamp: the panels always use it, insights never, and its age is NaN |
| PerformanceInsights.CacheHours | frontend/src/components/PerformanceInsights.tsx:233-235 | floor of the age in hours; NaN stays NaN |
| PerformanceInsights.InsightsPanel.constructor | frontend/src/components/PerformanceInsights.tsx:92-93 | not refreshing and the cache not in use |
| PerformanceInsights.InsightsPanel.Mount | frontend/src/components/PerformanceInsights.tsx:97-102 | the cache comes into use exactly when it holds fresh data |
| PerformanceInsights.InsightsPanel.RunQuery | frontend/src/components/PerformanceInsights.tsx:106-116 | with the cache in use and no refresh, fresh cached data answers; otherwise one request |
| PerformanceInsights.InsightsPanel.OnInsightsFetched | frontend/src/components/PerformanceInsights.tsx:116-123 | the answer is cached, becomes the query data, and the cache leaves use |
| PerformanceInsights.InsightsPanel.RefreshStart | frontend/src/components/PerformanceInsights.tsx:144-148 | refreshing, cache not in use, one request |
| PerformanceInsights.InsightsPanel.RefreshSucceeded | frontend/src/components/PerformanceInsights.tsx:148-175 | the answer is cached, both queries are invalidated, the refresh ends |
| PerformanceInsights.InsightsPanel.RefreshFailed | frontend/src/components/PerformanceInsights.tsx:162-175 | fresh cached data becomes the query data and the cache is used again; the refresh ends |
| PerformanceInsights.InsightsPanel.CacheInfo | frontend/src/components/PerformanceInsights.tsx:231-235 | a label exactly while the cache is in use and an entry is readable, with the hours |
| PerformanceInsights.KeepPositive | frontend/src/components/PerformanceInsights.tsx:243-249 | the filter never lengthens the list and keeps only positive values |
| PerformanceInsights.KeepPositiveMembers | frontend/src/components/PerformanceInsights.tsx:243-249 | an entry is kept exactly when it is present and positive |
| PerformanceInsights.CompletionData | frontend/src/components/PerformanceInsights.tsx:238-243 | Completed, In Progress, Pending, Backlog in that order, each present exactly when positive |
| PerformanceInsights.PriorityData | frontend/src/components/PerformanceInsights.tsx:245-249 | High, Medium, Low in that order, each present exactly when positive |
| PerformanceInsights.Efficiency | frontend/src/components/PerformanceInsights.tsx:255 | the nearest integer to 100·completed/total (halves up); 0 without tasks |
| PerformanceInsights.EfficiencyIsPercentage | frontend/src/components/PerformanceInsights.tsx:255 | 0 <= efficiency <= 100 when no more tasks are done than exist |
| PerformanceInsights.WeeklyData | frontend/src/components/PerformanceInsights.tsx:251-256 | one entry per trend day in key order, labelled with the locale-formatted date of its key (the formatter is a parameter), with its counts and the efficiency of those counts |
| PerformanceInsights.Progress | frontend/src/components/PerformanceInsights.tsx:427 | value/total·100, or 0 without tasks |
| AIGenerator.AddPrompt | frontend/src/components/AIGenerator.tsx:53-55 | one more prompt, empty, at the end; the others are kept |
| AIGenerator.UpdatePrompt | frontend/src/components/AIGenerator.tsx:57-59 | same length; only the prompt at the index changes |
| AIGenerator.UpdateIsSequenceUpdate | frontend/src/components/AIGenerator.tsx:57-59 | in range the update is `ps[i := v]`; out of range it changes nothing |
| AIGenerator.RemovePrompt | frontend/src/components/AIGenerator.tsx:61-63 | the list never grows |
| AIGenerator.RemoveDeletesOne | frontend/src/components/AIGenerator.tsx:61-63 | in range exactly the prompt at the index is deleted (`ps[..i] + ps[i+1..]`); out of range nothing changes |
| AIGenerator.AddThenRemove | frontend/src/components/AIGenerator.tsx:53-63 | adding a prompt and removing it restores the list |
| AIGenerator.ValidPrompts | frontend/src/components/AIGenerator.tsx:30 | the filter never lengthens the list |
| AIGenerator.ValidPromptsMembers | frontend/src/components/AIGenerator.tsx:30 | a prompt is sent exactly when it is in the list and not blank |
| AIGenerator.ValidPromptsAllKept | frontend/src/components/AIGenerator.tsx:30 | without blank prompts, all are sent, in order |
| AIGenerator.PlanOptions | frontend/src/components/AIGenerator.tsx:34 | options are the valid prompts, and absent exactly when there are none |
| AIGenerator.InitialSendsNoOptions | frontend/src/components/AIGenerator.tsx:18-34 | the initial list `['']` sends no options |
| AIGenerator.OptionsIffSomeNonBlank | frontend/src/components/AIGenerator.tsx:30-34 | options are sent if and only if some prompt is not blank |
| AIGenerator.StartGeneratePlan | frontend/src/components/AIGenerator.tsx:29-35 | the overlay opens as loading with the generating text and no callback, and the request carries the plan options |
| AIGenerator.GeneratePlanSettled | frontend/src/components/AIGenerator.tsx:36-46 | the overlay stops loading but stays open; its text and callback stay, and no callback runs |
| AddTaskForm.FormPayload | frontend/src/components/AddTaskForm.tsx:60-76 | nothing exactly for a blank title; otherwise the untrimmed title, status `todo`, and a time only when entered |
| AddTaskForm.WhitespaceTitleSendsNothing | frontend/src/components/AddTaskForm.tsx:62-65 | a title sends nothing exactly when every character is whitespace |
| AddTaskForm.EmptyDraftSendsNothing | frontend/src/components/AddTaskForm.tsx:18-65 | submitting the untouched form sends nothing |
| AddTaskForm.Form.constructor | frontend/src/components/AddTaskForm.tsx:18-25 | the empty draft ('', 30, medium, '') and both panels hidden |
| AddTaskForm.Form.AddTaskClick | frontend/src/components/AddTaskForm.tsx:30-35 | the voice agent hides and the form toggles; never both shown |
| AddTaskForm.Form.VoiceInputClick | frontend/src/components/AddTaskForm.tsx:38-43 | the form closes and the voice agent toggles; never both shown |
| AddTaskForm.Form.Cancel | frontend/src/components/AddTaskForm.tsx:233 | the form closes |
| AddTaskForm.Form.EditTitle | frontend/src/components/AddTaskForm.tsx:164 | only the title changes |
| AddTaskForm.Form.EditScheduledTime | frontend/src/components/AddTaskForm.tsx:178 | only the time changes |
| AddTaskForm.Form.EditDuration | frontend/src/components/AddTaskForm.tsx:191 | only the duration changes |
| AddTaskForm.Form.EditImportance | frontend/src/components/AddTaskForm.tsx:215 | only the importance changes |
| AddTaskForm.Form.Submit | frontend/src/components/AddTaskForm.tsx:60-76 | one request with the payload, or nothing for a blank title |
| AddTaskForm.Form.OnCreated | frontend/src/components/AddTaskForm.tsx:48-54 | the draft resets to '', 30, medium, '' and both panels close |
| AddTaskForm.ClickKeepsPanelsExclusive | frontend/src/components/AddTaskForm.tsx:30-43 | from any state, one click leaves at most one of the form and the voice agent showing (see also lines 52-53) |
| AddTaskForm.NeverBothOpen | frontend/src/components/AddTaskForm.tsx:24-25 | from both closed, no click sequence shows both panels; two Add clicks restore the form (see also lines 30-43, 52-53, 233) |
| CarGame.Collide | frontend/src/components/CarGame.tsx:167-177 | a collision needs the boxes' vertical ranges to meet, and a well-formed box collides with itself |
| CarGame.CollideSymmetric | frontend/src/components/CarGame.tsx:167-177 | overlap is symmetric, is interval overlap on both axes, and touching edges collide |
| CarGame.LineStep | frontend/src/components/CarGame.tsx:156-162 | a line moves down by the speed, or is lifted by 750 first, and it moves up exactly when it was at 700 or below |
| CarGame.LinesStep | frontend/src/components/CarGame.tsx:150-165 | every line takes one step, in place |
| CarGame.LineStaysInBand | frontend/src/components/CarGame.tsx:155-161 | one step keeps a line in [-45, 705) |
| CarGame.LinesStayInBand | frontend/src/components/CarGame.tsx:89-95 | lines starting in the band stay in it for any number of frames (see also lines 150-165) |
| CarGame.EnemyNextY | frontend/src/components/CarGame.tsx:186-200 | a colliding enemy stays put; otherwise it moves down by the speed or reappears at -300 plus the speed, and it only moves up after reaching 750 |
| CarGame.EnemyNextX | frontend/src/components/CarGame.tsx:186-200 | an enemy changes column only when it reappears from 750 or below without colliding, and then takes the new column |
| CarGame.EnemyStaysInBand | frontend/src/components/CarGame.tsx:186-200 | one step keeps an enemy in [-1050, 755) |
| CarGame.MovementBounds | frontend/src/components/CarGame.tsx:128-139 | each axis moves by at most the speed; a single arrow moves the car exactly when it is inside that arrow's bound |
| CarGame.AfterEndsEffect | frontend/src/components/CarGame.tsx:204-233 | k endGame calls: stopped once any; k saves for a new high score; otherwise k immediate reports or the prompt |
| CarGame.EndEventsSaveOnlyAbove | frontend/src/components/CarGame.tsx:213-232 | a save happens exactly above the session's high score; an immediate report exactly otherwise, when not loading and a callback exists |
| CarGame.Game.constructor | frontend/src/components/CarGame.tsx:12-38 | not playing, score 0, no prompt, and the high score read from storage (0 when unset) |
| CarGame.Game.StartGame | frontend/src/components/CarGame.tsx:78-117 | lines at 150i, enemies at -350(i+1) in the given columns, the car at its layout position, score 0, playing; the session captures the high score, loading flag and callback |
| CarGame.Game.MoveLines | frontend/src/components/CarGame.tsx:150-165 | the line array becomes each line's step |
| CarGame.Game.EndGame | frontend/src/components/CarGame.tsx:204-233 | one endGame up to its await: the game stops; a score above the session's high score becomes the high score, is stored and saved, and holds back the callback; otherwise the callback runs at once or the prompt shows |
| CarGame.Game.MoveEnemy | frontend/src/components/CarGame.tsx:186-200 | a colliding enemy stays put and endGame runs; any other enemy scrolls, taking the new column when it wraps; the other enemies are unchanged |
| CarGame.Game.MoveEnemies | frontend/src/components/CarGame.tsx:179-202 | each enemy takes its step; endGame runs once per colliding enemy |
| CarGame.Game.Tick | frontend/src/components/CarGame.tsx:119-148 | a stopped game is unchanged; otherwise lines and enemies step, the car moves within bounds, the score counts up, and the game stops exactly when an enemy collided |
| CarGame.Game.SaveSettled | frontend/src/components/CarGame.tsx:219-232 | with a pending save, one fewer is pending and the callback gets the current score (not loading, with a callback) or the prompt shows; with none, nothing changes |
| CarGame.Game.LoadingEffect | frontend/src/components/CarGame.tsx:68-76 | the prompt shows for a scored game once loading ends, only without callbacks |
| CarGame.Game.EndFromPrompt | frontend/src/components/CarGame.tsx:243-248 | the prompt hides and the score is reported if there is a callback |
| CarGame.Game.ContinueFromPrompt | frontend/src/components/CarGame.tsx:235-241 | the prompt hides, the parent is told, and a new game starts: lines at 150·i, enemies at -350·(i+1) in the given columns, the car at its layout position, score 0 |
| GameModal.Modal.constructor | frontend/src/components/GameModal.tsx:24-27 | all scores 0 and not ready to close, over the given stored high score |
| GameModal.Modal.Open | frontend/src/components/GameModal.tsx:31-34 | not ready to close, game score 0 |
| GameModal.Modal.HighScoreLoaded | frontend/src/components/GameModal.tsx:40-50 | a non-zero high score is taken with its all-time high (or 0); otherwise the stored score if any |
| GameModal.Modal.HighScoreFailed | frontend/src/components/GameModal.tsx:51-58 | the stored score if any |
| GameModal.Modal.UseStoredHighScore | frontend/src/components/GameModal.tsx:52-57 | the stored high score replaces the shown one when there is one |
| GameModal.Modal.HandleGameEnd | frontend/src/components/GameModal.tsx:74-86 | game score is the score; a score above the high score of the render whose handler the game holds becomes the high score and is stored, even when the shown high score has since grown past it; otherwise both stay; the callback gets the score |
| GameModal.Modal.Save | frontend/src/components/GameModal.tsx:89-102 | a save request exactly for a positive game score |
| GameModal.Modal.HandleClose | frontend/src/components/GameModal.tsx:104-111 | save, then close |
| GameModal.Modal.HandleShowResult | frontend/src/components/GameModal.tsx:113-121 | save, then close |
| GameModal.Modal.DialogOpenChange | frontend/src/components/GameModal.tsx:131-137 | closing saves then closes; opening does nothing |
| GameModal.Modal.HandleContinuePlaying | frontend/src/components/GameModal.tsx:123-125 | not ready to close |
| GameModal.DescriptionLines | frontend/src/components/GameModal.tsx:147-168 | the loading text while loading; after a game the score, the high score and the all-time high; before a game the instructions first, the high score only when positive, and the all-time high last |
| GameModal.Buttons | frontend/src/components/GameModal.tsx:181-203 | no buttons while loading; Show Result exactly after a scored game; Continue first and Close last |
| GameContext.GameProvider.constructor | frontend/src/contexts/GameContext.tsx:16-19 | closed, not loading, 'Loading...', no callback |
| GameContext.GameProvider.OpenGame | frontend/src/contexts/GameContext.tsx:21-30 | open, loading (default true), text (default 'Loading...'); a given callback is run at once as a React state updater with the previous callback, and its return value is what is stored; without one nothing is stored |
| GameContext.VoidCallbackIsDropped | frontend/src/contexts/GameContext.tsx:28 | a callback that returns nothing leaves no callback stored, so it is not the callback passed in |
| GameContext.GameProvider.CloseGame | frontend/src/contexts/GameContext.tsx:32-39 | exactly the initial state |
| GameContext.GameProvider.SetGameLoading | frontend/src/contexts/GameContext.tsx:41-43 | only the loading flag changes |
| GameContext.UseGame | frontend/src/contexts/GameContext.tsx:62-67 | the context inside a provider; the error message outside one |
| TimeOfDay.GetTimeInfo | frontend/src/hooks/useTimeOfDay.ts:33-63 | morning exactly 5-11, day 12-16, evening 17-20, night otherwise; each with its greeting and description; the hour is returned unchanged |
| TimeOfDay.GreetingTellsPeriod | frontend/src/hooks/useTimeOfDay.ts:37-58 | two hours share a greeting exactly when they share a period |
| TimeOfDay.AgreesWithAssistant | frontend/src/hooks/useTimeOfDay.ts:34-61 | the header and the assistant agree on hours 6-20; at 5 the header says morning and the assistant late night; both say night at 21-23 |

## Left out

- Network I/O is a log of request values. Each method that answers a request takes the
  answer as a parameter. Toasts, console output and react-query's
  caching, invalidation refetches and retries are not modelled.
- Asynchrony is modelled as separate start and completion methods. The model
  does not capture the interleavings the caller could choose between them.
- Browser APIs become parameters or explicit methods:
  - speech recognition events, `setInterval`/`setTimeout` ticks and
    `requestAnimationFrame` frames are methods;
  - `Date.now()`, `Math.random()` and locale date formatting are parameters.
- The DOM is not modelled:
  - the drop indicators' boxes, `getBoundingClientRect`, `offsetLeft`/`offsetTop`
    and the road's box are parameters;
  - the CSS sizes of the cars are constructor parameters, because the stylesheet
    is not part of this model;
  - rectangles are taken in the game area's coordinates.
- `clearHighlights` and the highlight effect on drag-over are not modelled: they only
  change styling.
- `Text.ToLower` handles ASCII only. JavaScript's Unicode case mapping is not
  modelled.
- `parseInt` of a stored high score is modelled as an `Option<int>`. A non-numeric
  stored string (NaN) is not modelled.
- Numbers are integers. Efficiency uses exact rounding of the rational value
  rather than floating point, and `Progress` uses `real`.
- VoiceAgent's `onend` handler reads the `isListening` value its closure captured at
  creation time, which is `false`, so it never acts. The model therefore has no member
  for it. `extractedTasks` is only ever set to `[]`, so it is not modelled.
- The duplicate custom-prompt list inside the kanban board (TaskKanban.tsx:116,
  174-184) is the same code as the AI generator's. It is modelled once, in `AIGenerator`.
- GameModal.Modal.HandleShowResult: the `setTimeout(onClose, 0)` delay is not
  modelled, and the close is recorded at once.
- KanbanAI.Assistant.OnVoiceResult: the dictation request waits 500 ms and the
  question 1 s (KanbanAI.tsx:206-208, 215-219); the model records them at once.
  The toast and the first-result-only read of `event.results[0]` are kept as the
  `transcript` parameter.
- WeatherDisplay.WeatherPanel.RefreshSucceeded: a falsy refresh answer would set
  `cachedData` to that falsy value and re-enable the weather query; the model
  takes the answer as present and caches it.
- ApodDisplay.ApodPanel.RefreshSucceeded: the same falsy-answer case is not
  modelled for the APOD panel.
- TaskKanban.NearestIndicator: the reduce's starting accumulator uses the
  last indicator as its element. An empty indicator list is excluded by a requires clause,
  because every column renders its end indicator (TaskKanban.tsx:506).
- Rendering is modelled only where it decides something: the dialog's texts and buttons, the
  quick questions, the charts and the drop indicators. All other markup is left out.

## Findings

| source | as written | input that shows it | evidently intended | confidence | as-written member | corrected member |
|---|---|---|---|---|---|---|
| frontend/src/components/VoiceAgent.tsx:107-121 | with `continuous = true`, onresult rebuilds the transcript from `event.resultIndex` only, so final text before that index is dropped | results ["buy milk" (final), " then call mom" (interim)] reported with `resultIndex` 1: the transcript becomes " then call mom" | rebuild from index 0, so that the transcript keeps all final text of the session | medium; not executed (depends on the browser reporting the whole session in `event.results`) | VoiceAgent.EarlierFinalTextDropped | VoiceAgent.SessionTranscriptKeepsFinals |

`VoiceAgent.Agent.OnResult` keeps the code as written. `VoiceAgent.SessionTranscript`
is the intended transcript, and `VoiceAgent.SessionTranscriptKeepsFinals` is proved
of it.
