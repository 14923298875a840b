# Task management board: a verified model of its deterministic core

The application turns a meeting transcript into tasks with a language model
and shows them on a three-column Kanban board where they can be dragged
between columns, edited and deleted. Most of it is UI and network glue. This
project models the parts that compute something, and proves what they
promise:

- **Task vocabulary** (`task.dfy`, module `TaskTypes`): the status and
  priority enumerations with their wire names, the `Task` record, the
  creation input in which only the title is required, and the sparse update
  in which an absent field (`Absent`) differs from an explicit null
  (`Present(None)`).
- **Transcript processing** (`text.dfy`, `cleaning.dfy`, `extraction.dfy`,
  modules `Text`, `Cleaning`, `Extraction`). This is the route that handles
  a transcript without its I/O. It checks the input and reads the model's
  reply. It strips code-fence markers from the reply and trims it. Each
  parsed draft is validated and normalised (trim, empty to null, defaults).
  The route builds the success payload and maps every failure to an HTTP
  status and message. The model's outcome, the JSON parser and the
  database's answer to each write are parameters.
- **Board rules** (`kanban_board.dfy`, module `KanbanBoard`): the columns,
  the grouping of the task list into one bucket per status (an imperative
  loop proved to compute a partition that keeps order), and the drop
  resolution that decides whether a drag issues a status update and with
  which status. A `Board` class holds the component's state.
- **Client task cache** (`task_cache.dfy`, module `TaskCache`): the
  `tasks`/`loading`/`error` state of the client hook as a class. Its fetch,
  status update, update and delete operations take the server's reply as a
  parameter. On success an update replaces records by id and a delete
  filters them out; a failure leaves the list alone and raises.
- **Edit form** (`task_edit_modal.dfy`, module `TaskEditModal`): the form
  pre-fill, the save payload, the save-enabled guard, and the open, loading
  and confirmation flags of the dialog as a class.

`wrappers.dfy` holds `Option`/`Result`; `sequences.dfy` holds an
order-preserving subsequence predicate used by the grouping and delete
lemmas.

Trimming uses the exact whitespace set of ECMAScript's
`String.prototype.trim`.

The model follows the code as written, including where it departs from
what its types and messages suggest:

- A draft title made only of spaces passes the route's title check, because
  the check only tests for a non-empty string. It is then written as the
  empty string (`WhitespaceTitleStoredEmpty`).
- A JSON value that is not an array, a status or priority outside its
  enumeration, and a description or assignee that is neither a string nor
  null all end in the generic 500 error, not in a dedicated one.
- A batch is not atomic: every valid draft's write is issued even when
  another draft fails. The model proves only what the response says.
- When the awaited status update throws during a drag, the handler exits
  before its final reset, so `activeTask` keeps its value on that path
  (`KanbanBoard.Board.DragEnd`). On every other path it becomes null.

## Model

| member | source | states |
|---|---|---|
| TaskTypes.ParseStatus | src/types/task.ts:1 | exactly the names "todo", "in-progress" and "done" denote a status, and the status's name is the name parsed |
| TaskTypes.StatusNameRoundTrip | src/types/task.ts:1 | every status's name parses back to that status |
| TaskTypes.ParsePriority | src/types/task.ts:2 | exactly "high", "medium" and "low" denote a priority, and its name is the name parsed |
| TaskTypes.PriorityNameRoundTrip | src/types/task.ts:2 | every priority's name parses back to that priority |
| TaskTypes.ApplyUpdate | src/types/task.ts:23-29 | the sparse update the task-update route (lines 13-24 of its route file) applies: each absent field keeps the stored value and each present one, null included, replaces it |
| TaskTypes.NoUpdatesIsIdentity | src/types/task.ts:23-29 | an update with every field absent leaves a task's fields unchanged |
| TaskTypes.ApplyUpdateIdempotent | src/types/task.ts:23-29 | applying the same sparse update twice equals applying it once |
| TaskTypes.AbsentDiffersFromNull | src/types/task.ts:25 | an absent description keeps the stored one while an explicit null clears it |
| Text.Trim | src/app/api/process-transcript/route.ts:17 | the result is the infix of the input after its leading and before its trailing whitespace; it neither starts nor ends with whitespace, and is empty exactly when the input is all whitespace |
| Text.TrimIdempotent | src/app/api/process-transcript/route.ts:104 | trimming twice equals trimming once |
| Cleaning.Clean | src/app/api/process-transcript/route.ts:101-104 | the cleaned reply contains no "```" marker and has no leading or trailing whitespace |
| Cleaning.StripMarker | src/app/api/process-transcript/route.ts:102-103 | a global replace of the marker and at most one following newline never lengthens the text; StripFenceIsFenceFree, StripFenceFreeIsIdentity and StripKeepsPlainPrefix describe what it removes and keeps |
| Cleaning.StripFenceIsFenceFree | src/app/api/process-transcript/route.ts:103 | after removing every "```" with at most one following newline, no "```" remains, whatever the input |
| Cleaning.StripFenceFreeIsIdentity | src/app/api/process-transcript/route.ts:102-103 | removing a marker that starts with "```" leaves text without "```" unchanged |
| Cleaning.TrimKeepsFenceFree | src/app/api/process-transcript/route.ts:104 | trimming text that has no "```" creates none |
| Cleaning.CleanIdempotent | src/app/api/process-transcript/route.ts:101-104 | cleaning a cleaned reply changes nothing |
| Cleaning.CleanFenceFree | src/app/api/process-transcript/route.ts:101-104 | a reply without any "```" is only trimmed |
| Cleaning.CleanFencedReply | src/app/api/process-transcript/route.ts:101-104 | a reply made of a "```json" line, backtick-free content and a closing "```" cleans to the content, trimmed |
| Extraction.TranscriptAccepted | src/app/api/process-transcript/route.ts:17 | the input check accepts exactly a string with a non-whitespace character |
| Extraction.FirstText | src/app/api/process-transcript/route.ts:87-88 | the reply text is the first block's text when that block is text; a non-empty reply text always comes from a text block |
| Extraction.InputRejectedExactly | src/app/api/process-transcript/route.ts:17-22 | the response is the 400 input error exactly when the transcript is missing, not a string, or blank |
| Extraction.NoResponseExactly | src/app/api/process-transcript/route.ts:87-95 | the "No response from LLM" error, always with 500, is given exactly when the input is accepted and the reply's first block is not text or is empty |
| Extraction.ParseFailedExactly | src/app/api/process-transcript/route.ts:97-113 | the parse error is given exactly when the parser rejects the cleaned, non-empty reply text |
| Extraction.TitleAccepted | src/app/api/process-transcript/route.ts:119 | a draft title is accepted exactly when it is a non-empty string |
| Extraction.WhitespaceTitleStoredEmpty | src/app/api/process-transcript/route.ts:119-125 | a title of whitespace only passes the check and is written as the empty string |
| Extraction.NormaliseText | src/app/api/process-transcript/route.ts:126 | a description or assignee is trimmed and becomes null when absent, null or blank; any other non-string value throws |
| Extraction.NormaliseStatus | src/app/api/process-transcript/route.ts:127 | a falsy status defaults to todo; a truthy one is kept when it names a status and rejected otherwise |
| Extraction.NormalisePriority | src/app/api/process-transcript/route.ts:128 | a falsy priority defaults to medium; a truthy one is kept when it names a priority and rejected otherwise |
| Extraction.NormaliseDraft | src/app/api/process-transcript/route.ts:118-130 | a draft is written exactly when its title and every field are acceptable, with the trimmed title and the normalised fields; a bad title gives the title error |
| Extraction.CreateOne | src/app/api/process-transcript/route.ts:117-132 | one draft yields a task exactly when it normalises and its write succeeds; the task carries the normalised data and the store's id |
| Extraction.CreateEach | src/app/api/process-transcript/route.ts:116-132 | one outcome per draft, in draft order, draft k written with the store's k-th answer |
| Extraction.All | src/app/api/process-transcript/route.ts:116 | the combined outcome succeeds exactly when every outcome does, with their values in order; otherwise it fails with one of the failures |
| Extraction.ErrorResponse | src/app/api/process-transcript/route.ts:144-169 | an API error with status 404 becomes 400 "Model not found"; another API error keeps its status, or gets 500 when it has none; any other error becomes 500 |
| Extraction.Post | src/app/api/process-transcript/route.ts:13-170 | the route answers with a success only for a request whose transcript is a non-blank string; the lemmas below state each of its other responses |
| Extraction.AnswerModel | src/app/api/process-transcript/route.ts:75-95 | after the input check, a success needs the model to reply with a first block that is text |
| Extraction.AnswerReply | src/app/api/process-transcript/route.ts:90-113 | once the reply text is known, a success needs a non-empty text whose cleaned form parses as an array, with one task per element |
| Extraction.AnswerBatch | src/app/api/process-transcript/route.ts:116-139 | a successful batch answers with one task per draft and a count equal to the number of tasks |
| Extraction.BatchOutcomes | src/app/api/process-transcript/route.ts:116-139 | the batch answers either with a success carrying 200 or with the generic 500 error |
| Extraction.ReplyOutcomes | src/app/api/process-transcript/route.ts:90-113 | from a reply text: an empty text gives the no-response error, a rejected parse gives the parse error, reached drafts give the batch's answer, anything else a failure |
| Extraction.ModelOutcomes | src/app/api/process-transcript/route.ts:87-113 | the same facts one step earlier, from the model's outcome, with consistent statuses |
| Extraction.PostReachesBatch | src/app/api/process-transcript/route.ts:13-116 | once the request reaches the drafts, the response is the batch's answer for them |
| Extraction.NoDraftsNoSuccess | src/app/api/process-transcript/route.ts:13-113 | a request that does not reach the drafts is never answered with a success |
| Extraction.BatchSucceedsExactly | src/app/api/process-transcript/route.ts:116-139 | the batch succeeds exactly when every draft is valid and its write succeeds |
| Extraction.InvalidDraftFailsBatch | src/app/api/process-transcript/route.ts:119-121 | one draft without a usable title turns the whole response into the generic 500 error |
| Extraction.SuccessExactly | src/app/api/process-transcript/route.ts:116-139 | the route succeeds exactly when it reaches the drafts and every draft is valid and written |
| Extraction.BatchPayload | src/app/api/process-transcript/route.ts:135-139 | a successful batch has status 200, one task per draft in draft order with the draft's normalised data and the store's id, and `count` equal to the number of tasks |
| Extraction.SuccessPayload | src/app/api/process-transcript/route.ts:116-139 | the same payload facts for the whole route, against the drafts the request reached |
| Extraction.ErrorStatuses | src/app/api/process-transcript/route.ts:144-169 | a caught error's response has consistent statuses: only the unknown-model error or an upstream 400 carries 400 |
| Extraction.ResponseStatuses | src/app/api/process-transcript/route.ts:13-170 | every response: a success carries 200; a 400 is the input error, the unknown-model error or an upstream 400; other failures carry 500 unless upstream gave a status |
| Extraction.NullableNormalised | src/app/api/process-transcript/route.ts:126 | an optional text field of a typed creation input is always accepted: trimmed, or null |
| Extraction.StatusNormalised | src/app/api/process-transcript/route.ts:127 | a typed status is kept and an absent one becomes todo |
| Extraction.PriorityNormalised | src/app/api/process-transcript/route.ts:128 | a typed priority is kept and an absent one becomes medium |
| Extraction.CreateInputNormalised | src/app/api/process-transcript/route.ts:123-130 | a typed creation input is written exactly when its title is non-empty, with trimmed text and defaults; an optional field is stored as null exactly when it is absent, null or blank |
| KanbanBoard.OneColumnPerStatus | src/app/components/KanbanBoard.tsx:37-41 | the board has exactly one column per status |
| KanbanBoard.Buckets.Push | src/app/components/KanbanBoard.tsx:71 | a push appends the task to its status's bucket and changes no other bucket |
| KanbanBoard.GroupByStatus | src/app/components/KanbanBoard.tsx:63-75 | the loop fills each status's bucket with exactly the tasks of that status, in list order |
| KanbanBoard.ByStatusMembers | src/app/components/KanbanBoard.tsx:70-72 | a task is in a bucket exactly when it is in the list and has that bucket's status |
| KanbanBoard.ByStatusSizes | src/app/components/KanbanBoard.tsx:63-74 | the bucket sizes add up to the list's length |
| KanbanBoard.ByStatusPartition | src/app/components/KanbanBoard.tsx:63-74 | together the buckets hold every task exactly as often as the list does |
| KanbanBoard.ByStatusKeepsOrder | src/app/components/KanbanBoard.tsx:70-72 | each bucket is a subsequence of the list: relative order is kept |
| KanbanBoard.FindById | src/app/components/KanbanBoard.tsx:92 | the search finds nothing exactly when no task has the id, and otherwise the first task with it |
| KanbanBoard.ColumnStatus | src/app/components/KanbanBoard.tsx:103-104 | an id is a column id exactly when some column's status has that name, and it reads as that status |
| KanbanBoard.TargetStatus | src/app/components/KanbanBoard.tsx:100-111 | a drop target has no status exactly when it is neither a column id nor a task's id; otherwise the status is the column's own or that of a task with the id |
| KanbanBoard.ResolveDrop | src/app/components/KanbanBoard.tsx:83-115 | no target or an unknown dragged id issues nothing; an update is issued exactly when the target's status exists and differs from the dragged task's, for the dragged id and with that status |
| KanbanBoard.DropOnColumn | src/app/components/KanbanBoard.tsx:103-104 | a drop on a column moves the task to that status, and issues nothing when it is already there |
| KanbanBoard.DropOnCard | src/app/components/KanbanBoard.tsx:106-111 | a drop on a card moves the task to the card's status; a target that is neither a column nor a task issues nothing |
| KanbanBoard.DropOnItself | src/app/components/KanbanBoard.tsx:113-115 | dropping a card on itself issues nothing |
| KanbanBoard.Board.constructor | src/app/components/KanbanBoard.tsx:49-75 | a mounted board holds its tasks and no dragged task, with the buckets grouped from the tasks |
| KanbanBoard.Board.SetTasks | src/app/components/KanbanBoard.tsx:63-75 | new tasks re-group the buckets and leave the dragged task alone |
| KanbanBoard.Board.DragStart | src/app/components/KanbanBoard.tsx:77-81 | the dragged task is the first task with the active id, or none |
| KanbanBoard.Board.DragEnd | src/app/components/KanbanBoard.tsx:83-118 | the update issued is the drop resolution's; the handler raises exactly when an issued update throws; the dragged task is cleared unless it raised |
| TaskCache.ReplaceById | src/hooks/useTasks.ts:48 | replacing by id, as here and at line 72, keeps the list's length; ReplaceByIdAt gives each entry |
| TaskCache.ReplaceByIdAt | src/hooks/useTasks.ts:47-49 | replacing keeps length and order; entries with the id become the server's record and all others stay |
| TaskCache.ReplaceUnknownId | src/hooks/useTasks.ts:71-73 | an id that is not cached leaves the list unchanged |
| TaskCache.RemoveById | src/hooks/useTasks.ts:90 | the filter never lengthens the list and leaves no entry with the id |
| TaskCache.RemoveByIdMembers | src/hooks/useTasks.ts:90 | after a delete a task is in the list exactly when it was before and has another id |
| TaskCache.RemoveByIdCounts | src/hooks/useTasks.ts:90 | a delete drops every entry with the id and keeps every other entry as often as before |
| TaskCache.RemoveByIdKeepsOrder | src/hooks/useTasks.ts:90 | the remaining entries keep their order |
| TaskCache.RemoveByIdIdempotent | src/hooks/useTasks.ts:90 | deleting the same id twice equals deleting it once |
| TaskCache.StatusOnly | src/hooks/useTasks.ts:39 | the status update's body carries the status and no other field |
| TaskCache.StatusOnlyChangesStatus | src/hooks/useTasks.ts:39 | applied to any record, the status update changes its status and nothing else |
| TaskCache.Cache.constructor | src/hooks/useTasks.ts:7-9 | the cache starts with no tasks, loading, and no error |
| TaskCache.Cache.FetchTasks | src/hooks/useTasks.ts:11-26 | on success the list is replaced and the error stays null; on failure the error is set and the list kept; loading ends false |
| TaskCache.Cache.UpdateTaskStatus | src/hooks/useTasks.ts:32-54 | sends only the status; on success replaces the entries with the id by the server's record; on failure keeps the list and raises |
| TaskCache.Cache.UpdateTask | src/hooks/useTasks.ts:56-78 | sends the updates verbatim, then the same success and failure behaviour |
| TaskCache.Cache.DeleteTask | src/hooks/useTasks.ts:80-95 | on success filters out the entries with the id; on failure keeps the list and raises |
| TaskEditModal.EmptyIfNull | src/app/components/TaskEditModal.tsx:32-35 | a nullable field shows as its text, and shows as empty exactly when it is null or "" |
| TaskEditModal.NullIfEmpty | src/app/components/TaskEditModal.tsx:46 | an input is sent as null exactly when it is empty, and as itself otherwise |
| TaskEditModal.ShowThenSend | src/app/components/TaskEditModal.tsx:29-50 | showing a nullable field and sending it back gives the field, except that '' becomes null |
| TaskEditModal.SendThenShow | src/app/components/TaskEditModal.tsx:29-50 | sending an input and showing it again gives the input |
| TaskEditModal.Prefill | src/app/components/TaskEditModal.tsx:29-37 | the form copies title, status and priority, and shows a null description or assignee as '' |
| TaskEditModal.SavePayload | src/app/components/TaskEditModal.tsx:44-50 | every field is sent; title, status and priority as typed, the title untrimmed; an empty description or assignee as null |
| TaskEditModal.SaveUneditedForm | src/app/components/TaskEditModal.tsx:29-50 | saving an unedited form leaves the task's fields as they were, except that a stored '' becomes null |
| TaskEditModal.PrefillAfterSave | src/app/components/TaskEditModal.tsx:29-50 | a saved form pre-fills back to itself |
| TaskEditModal.SaveEnabled | src/app/components/TaskEditModal.tsx:211 | save is enabled exactly when nothing is loading and the title has a non-whitespace character |
| TaskEditModal.Modal.constructor | src/app/components/TaskEditModal.tsx:21-27 | the dialog starts closed, with a blank form (todo, medium) and no flag set |
| TaskEditModal.Modal.Open | src/app/page.tsx:19-22 | opening on a task pre-fills the form when the task changed and keeps the form otherwise |
| TaskEditModal.Modal.Close | src/app/page.tsx:32-35 | closing clears the open flag and the task; the form keeps its text |
| TaskEditModal.Modal.EditForm | src/app/components/TaskEditModal.tsx:113-186 | the inputs set the form's fields |
| TaskEditModal.Modal.HandleSave | src/app/components/TaskEditModal.tsx:41-57 | sends the form's payload for the task; closes only when the save does not throw; loading ends false |
| TaskEditModal.Modal.AskDelete | src/app/components/TaskEditModal.tsx:195 | the delete button shows the confirmation |
| TaskEditModal.Modal.CancelDelete | src/app/components/TaskEditModal.tsx:230 | the confirmation's cancel hides it |
| TaskEditModal.Modal.HandleDelete | src/app/components/TaskEditModal.tsx:59-70 | deletes the task; closes only when the delete does not throw; loading ends false and the confirmation is hidden either way |

## Left out

- The language model call and its prompt (src/app/api/process-transcript/route.ts:6-11, 25-84) are a network call. Its outcome is a parameter: the reply's content blocks, or an API error with an optional status.
- `JSON.parse` is a library parser. Its result for each cleaned text is a parameter `parse`: unparseable, not an array, or an array of drafts given property by property.
- The database writes and the server-assigned ids and timestamps are outcomes supplied by the parameter `store`, one per draft position.
- The batch's writes are concurrent. The model does not describe which writes persist when another one fails, or which rejection `Promise.all` reports first. It proves only that the response is then the generic 500 error.
- The `details` strings of error responses and all console logging are not modelled.
- Numbers in the parsed JSON are integers; floating point, NaN and `-0` are not modelled.
- The status and priority check is attributed to the store, because the database schema is not part of this model. The model treats a truthy value outside the enumeration as a failed write.
- Extraction.NormaliseDraft: an array element that is not an object is modelled as a draft whose properties are all undefined. That is what JavaScript gives for a number, string, boolean or array element, and such a draft fails the title check. A `null` element makes the property access throw instead; the response is the same generic 500.
- `fetch`, HTTP and React's state scheduling are not modelled. Each hook call, effect and handler is one atomic step, and whether an awaited call throws is a parameter.
- The server's PATCH and DELETE handlers are not part of this model. The cache takes the server's reply as given. `ApplyUpdate` states what a sparse update means for a record.
- dnd-kit's sensors, collision detection, sortable context and drag overlay are library behaviour. Only the active id and the drop target's id enter the model.
- TaskEditModal.Modal.Open: React reruns the pre-fill effect when the task object changes identity. The model compares task values, so it does not cover a re-fetched task with equal contents.
- The rendering, styling and animation files, the pages' wiring, the navigation bar and the transcript input form are not part of this model. The form's blank check only mirrors the server's 400 rule.
