/** The transcript-processing route without its I/O: the request check, the
    handling of the language model's reply, the validation and normalisation
    of each extracted draft, the success payload and the mapping of failures
    to HTTP statuses. The model call, the JSON parser and the database writes
    are inputs: their outcomes are given, not computed. */
module Extraction {
  import opened Wrappers
  import opened TaskTypes
  import opened Text
  import opened Cleaning

  /** A JSON value as the route sees a property of a parsed object; `Undefined`
      is a property that is not there. Numbers are integers here. */
  datatype Json = Undefined | Null | Bool(b: bool) | Number(n: int) | Str(s: string) | Composite

  /** JavaScript truthiness of a value. */
  predicate Truthy(v: Json)
  {
    match v
    case Undefined => false
    case Null => false
    case Bool(b) => b
    case Number(n) => n != 0
    case Str(s) => s != ""
    case Composite => true
  }

  /** The request body: unreadable (malformed JSON, or `null`, which cannot be
      destructured), or an object whose `transcript` property is given. */
  datatype Request = Unreadable | Body(transcript: Json)

  /** A content block of the model's reply. */
  datatype ContentBlock = TextBlock(text: string) | OtherBlock

  /** What the route may catch: an error of the model provider's client,
      carrying an HTTP status when it has one, or any other exception. */
  datatype Thrown = ApiError(status: Option<int>) | OtherError

  /** The outcome of the model call. */
  datatype ModelOutcome = Replied(content: seq<ContentBlock>) | CallFailed(error: Thrown)

  /** An element of the parsed array, property by property. An element that is
      not an object behaves as one whose properties are all `Undefined`, or
      throws on the first access; either way the batch fails as below. */
  datatype Draft = Draft(title: Json, description: Json, status: Json, priority: Json, assignee: Json)

  /** The outcome of parsing the cleaned reply as JSON. */
  datatype Parsed = Unparseable | NotAnArray | DraftArray(drafts: seq<Draft>)

  /** Why one draft cannot be written: a missing or non-string title; a
      description or assignee that is neither a string nor null, on which
      `trim` throws; a status or priority outside its enumeration, which the
      store rejects. */
  datatype DraftError =
    | MissingTitle
    | DescriptionNotText
    | AssigneeNotText
    | StatusRejected
    | PriorityRejected

  /** The store's answer to one write: the server-assigned id and timestamps,
      or a failed write. */
  datatype StoreOutcome = Stored(id: string, createdAt: Timestamp, updatedAt: Timestamp) | WriteFailed

  datatype BatchError = Rejected(reason: DraftError) | StoreFailed

  datatype ResponseBody = Created(tasks: seq<Task>, count: int) | Failed(error: string)

  datatype Response = Response(status: int, body: ResponseBody)

  const InputRequired := "Input is required and must be a non-empty string"
  const NoResponse := "No response from LLM"
  const ParseFailed := "Failed to parse task extraction result"
  const ModelNotFound := "Model not found"
  const UpstreamFailed := "Anthropic API error"
  const ProcessingFailed := "Failed to process input and generate tasks"

  /** The request check: the transcript must be a string with at least one
      non-whitespace character. */
  predicate TranscriptAccepted(transcript: Json): (ok: bool)
    ensures ok <==> transcript.Str? && !Blank(transcript.s)
  {
    !(!Truthy(transcript) || !transcript.Str? || |Trim(transcript.s)| == 0)
  }

  /** The text of the first content block, or '' for a block that is not text. */
  function FirstText(block: ContentBlock): (text: string)
    ensures block.TextBlock? ==> text == block.text
    ensures text != "" ==> block.TextBlock?
  {
    if block.TextBlock? then block.text else ""
  }

  /** The per-draft title check: the title must be a non-empty string. A
      whitespace-only title passes. */
  predicate TitleAccepted(title: Json): (ok: bool)
    ensures ok <==> title.Str? && title.s != ""
  {
    !(!Truthy(title) || !title.Str?)
  }

  /** `value?.trim() || null` for a description or an assignee: a string is
      trimmed and kept unless it trims to ''; undefined and null give null;
      any other value makes `trim` throw. */
  function NormaliseText(value: Json): (r: Option<Option<string>>)
    ensures r.None? <==> !(value.Undefined? || value.Null? || value.Str?)
    ensures r == Some(None) <==> value.Undefined? || value.Null? || (value.Str? && Blank(value.s))
    ensures r.Some? && r.value.Some? ==> value.Str? && r.value.value == Trim(value.s) && r.value.value != ""
  {
    match value
    case Undefined => Some(None)
    case Null => Some(None)
    case Str(s) => var t := Trim(s); if t == "" then Some(None) else Some(Some(t))
    case _ => None
  }

  /** `value || 'todo'`: a falsy status takes the default, a truthy one must
      name a status for the store to accept it. */
  function NormaliseStatus(value: Json): (r: Option<TaskStatus>)
    ensures !Truthy(value) ==> r == Some(Todo)
    ensures Truthy(value) ==> (r.Some? <==> value.Str? && ParseStatus(value.s).Some?)
    ensures Truthy(value) && r.Some? ==> value == Str(StatusName(r.value))
  {
    if !Truthy(value) then Some(Todo)
    else if value.Str? then ParseStatus(value.s)
    else None
  }

  /** `value || 'medium'`, with the same store check. */
  function NormalisePriority(value: Json): (r: Option<Priority>)
    ensures !Truthy(value) ==> r == Some(Medium)
    ensures Truthy(value) ==> (r.Some? <==> value.Str? && ParsePriority(value.s).Some?)
    ensures Truthy(value) && r.Some? ==> value == Str(PriorityName(r.value))
  {
    if !Truthy(value) then Some(Medium)
    else if value.Str? then ParsePriority(value.s)
    else None
  }

  /** The data written for one draft, or the first reason it cannot be
      written: the title check, then a description and an assignee on which
      `trim` throws, in the order the object literal evaluates them, then the
      store's check of status and priority. */
  function NormaliseDraft(d: Draft): (r: Result<TaskData, DraftError>)
    ensures r.Ok? ==> TitleAccepted(d.title) && r.value.title == Trim(d.title.s)
    ensures !TitleAccepted(d.title) ==> r == Err(MissingTitle)
    ensures r.Ok? ==>
              && Some(r.value.description) == NormaliseText(d.description)
              && Some(r.value.assignee) == NormaliseText(d.assignee)
              && Some(r.value.status) == NormaliseStatus(d.status)
              && Some(r.value.priority) == NormalisePriority(d.priority)
    ensures r.Ok? <==>
              && TitleAccepted(d.title)
              && NormaliseText(d.description).Some? && NormaliseText(d.assignee).Some?
              && NormaliseStatus(d.status).Some? && NormalisePriority(d.priority).Some?
  {
    if !TitleAccepted(d.title) then Err(MissingTitle)
    else
      match (NormaliseText(d.description), NormaliseStatus(d.status),
             NormalisePriority(d.priority), NormaliseText(d.assignee))
      case (None, _, _, _) => Err(DescriptionNotText)
      case (_, _, _, None) => Err(AssigneeNotText)
      case (_, None, _, _) => Err(StatusRejected)
      case (_, _, None, _) => Err(PriorityRejected)
      case (Some(description), Some(status), Some(priority), Some(assignee)) =>
        Ok(TaskData(Trim(d.title.s), description, status, priority, assignee))
  }

  /** The record the store returns for written data. */
  function StoredTask(data: TaskData, id: string, createdAt: Timestamp, updatedAt: Timestamp): (t: Task)
    ensures Fields(t) == data && t.id == id
  {
    Task(id, data.title, data.description, data.status, data.priority, data.assignee, createdAt, updatedAt)
  }

  /** One element of the batch: normalise the draft, then write it. */
  function CreateOne(d: Draft, outcome: StoreOutcome): (r: Result<Task, BatchError>)
    ensures r.Ok? <==> NormaliseDraft(d).Ok? && outcome.Stored?
    ensures r.Ok? ==> Ok(Fields(r.value)) == NormaliseDraft(d) && r.value.id == outcome.id
  {
    match NormaliseDraft(d)
    case Err(reason) => Err(Rejected(reason))
    case Ok(data) =>
      match outcome
      case WriteFailed => Err(StoreFailed)
      case Stored(id, createdAt, updatedAt) => Ok(StoredTask(data, id, createdAt, updatedAt))
  }

  /** `tasks.map(...)`: the outcome for each draft, draft `k` written with
      `store(k)`. */
  function CreateEach(drafts: seq<Draft>, store: nat -> StoreOutcome): (rs: seq<Result<Task, BatchError>>)
    ensures |rs| == |drafts|
    ensures forall k :: 0 <= k < |drafts| ==> rs[k] == CreateOne(drafts[k], store(k))
  {
    seq(|drafts|, k requires 0 <= k < |drafts| => CreateOne(drafts[k], store(k)))
  }

  /** `Promise.all`: every outcome's value, in order, when all succeed; an
      error when any fails. */
  function All<T, E>(rs: seq<Result<T, E>>): (r: Result<seq<T>, E>)
    ensures r.Ok? <==> forall k :: 0 <= k < |rs| ==> rs[k].Ok?
    ensures r.Ok? ==> |r.value| == |rs| && forall k :: 0 <= k < |rs| ==> rs[k] == Ok(r.value[k])
    ensures r.Err? ==> exists k :: 0 <= k < |rs| && rs[k] == Err(r.error)
  {
    if rs == [] then Ok([])
    else if rs[0].Err? then Err(rs[0].error)
    else
      var rest := All(rs[1..]);
      if rest.Err? then
        assert rs[1..][0] == rs[1];
        Err(rest.error)
      else
        var r := [rs[0].value] + rest.value;
        assert forall k :: 1 <= k < |rs| ==> rs[k] == rs[1..][k - 1];
        Ok(r)
  }

  /** The response for a caught exception. */
  function ErrorResponse(e: Thrown): (r: Response)
    ensures r.body.Failed?
    ensures e == ApiError(Some(404)) ==> r == Response(400, Failed(ModelNotFound))
    ensures e.ApiError? && e.status != Some(404) ==>
              r.body == Failed(UpstreamFailed)
              && r.status == (if e.status.Some? && e.status.value != 0 then e.status.value else 500)
    ensures e.OtherError? ==> r == Response(500, Failed(ProcessingFailed))
  {
    match e
    case ApiError(status) =>
      if status == Some(404) then Response(400, Failed(ModelNotFound))
      else Response(if status.Some? && status.value != 0 then status.value else 500, Failed(UpstreamFailed))
    case OtherError => Response(500, Failed(ProcessingFailed))
  }

  /** The whole route: its response for a request, the model's outcome, the
      parser's view of each possible cleaned reply, and the store's answer to
      the write of each draft. */
  function Post(req: Request, model: ModelOutcome, parse: string -> Parsed, store: nat -> StoreOutcome): (r: Response)
    ensures r.body.Created? ==> req.Body? && req.transcript.Str? && !Blank(req.transcript.s)
  {
    match req
    case Unreadable => ErrorResponse(OtherError)
    case Body(transcript) =>
      if !TranscriptAccepted(transcript) then Response(400, Failed(InputRequired))
      else AnswerModel(model, parse, store)
  }

  /** The route after the input check: the model's outcome. */
  function AnswerModel(model: ModelOutcome, parse: string -> Parsed, store: nat -> StoreOutcome): (r: Response)
    ensures r.body.Created? ==> model.Replied? && |model.content| > 0 && model.content[0].TextBlock?
  {
    match model
    case CallFailed(e) => ErrorResponse(e)
    case Replied(content) =>
      if |content| == 0 then ErrorResponse(OtherError)
      else AnswerReply(FirstText(content[0]), parse, store)
  }

  /** The route once the reply text is known. */
  function AnswerReply(text: string, parse: string -> Parsed, store: nat -> StoreOutcome): (r: Response)
    ensures r.body.Created? ==> && text != "" && parse(Clean(text)).DraftArray?
                                && r.body.count == |parse(Clean(text)).drafts|
  {
    if text == "" then Response(500, Failed(NoResponse))
    else
      match parse(Clean(text))
      case Unparseable => Response(500, Failed(ParseFailed))
      case NotAnArray => ErrorResponse(OtherError)
      case DraftArray(drafts) => AnswerBatch(drafts, store)
  }

  /** The route once the drafts are known: the batch and its payload. */
  function AnswerBatch(drafts: seq<Draft>, store: nat -> StoreOutcome): (r: Response)
    ensures r.body.Created? ==> r.body.count == |r.body.tasks| == |drafts|
  {
    match All(CreateEach(drafts, store))
    case Err(_) => ErrorResponse(OtherError)
    case Ok(tasks) => Response(200, Created(tasks, |tasks|))
  }

  /** The drafts the route goes on to write from a reply text, when it gets
      that far. */
  function ReplyDrafts(text: string, parse: string -> Parsed): Option<seq<Draft>>
  {
    if text != "" && parse(Clean(text)).DraftArray? then Some(parse(Clean(text)).drafts) else None
  }

  /** The drafts the route goes on to write from the model's outcome. */
  function ModelDrafts(model: ModelOutcome, parse: string -> Parsed): Option<seq<Draft>>
  {
    if model.Replied? && |model.content| > 0 then ReplyDrafts(FirstText(model.content[0]), parse) else None
  }

  /** The drafts the route goes on to write for a request. */
  function ParsedDrafts(req: Request, model: ModelOutcome, parse: string -> Parsed): Option<seq<Draft>>
  {
    if req.Body? && TranscriptAccepted(req.transcript) then ModelDrafts(model, parse) else None
  }

  /** The lengths of the six error messages, which tell them apart. */
  lemma MessageLengths()
    ensures |InputRequired| == 48 && |NoResponse| == 20 && |ParseFailed| == 38
    ensures |ModelNotFound| == 15 && |UpstreamFailed| == 19 && |ProcessingFailed| == 42
  {
  }

  /** The batch answers with a success carrying 200 or with the generic 500
      error. */
  lemma BatchOutcomes(drafts: seq<Draft>, store: nat -> StoreOutcome)
    ensures || (AnswerBatch(drafts, store).body.Created? && AnswerBatch(drafts, store).status == 200)
            || AnswerBatch(drafts, store) == Response(500, Failed(ProcessingFailed))
  {
  }

  /** What a reply text leads to: the "no response" error exactly for an
      empty text, the parse error exactly when the parser rejects the cleaned
      text, the batch when the drafts are reached, a failure otherwise. */
  lemma ReplyOutcomes(text: string, parse: string -> Parsed, store: nat -> StoreOutcome)
    ensures text == "" ==> AnswerReply(text, parse, store) == Response(500, Failed(NoResponse))
    ensures text != "" ==> AnswerReply(text, parse, store).body != Failed(NoResponse)
    ensures AnswerReply(text, parse, store).body != Failed(InputRequired)
    ensures AnswerReply(text, parse, store).body == Failed(ParseFailed)
        <==> text != "" && parse(Clean(text)).Unparseable?
    ensures ReplyDrafts(text, parse).Some? ==>
              AnswerReply(text, parse, store) == AnswerBatch(ReplyDrafts(text, parse).value, store)
    ensures ReplyDrafts(text, parse).None? ==> AnswerReply(text, parse, store).body.Failed?
    ensures StatusConsistent(AnswerReply(text, parse, store))
  {
    MessageLengths();
    if text != "" {
      var parsed := parse(Clean(text));
      match parsed {
        case Unparseable =>
        case NotAnArray =>
        case DraftArray(drafts) => BatchOutcomes(drafts, store);
      }
    }
  }

  /** The same, one step earlier: what the model's outcome leads to. */
  lemma ModelOutcomes(model: ModelOutcome, parse: string -> Parsed, store: nat -> StoreOutcome)
    ensures AnswerModel(model, parse, store).body == Failed(NoResponse)
        <==> model.Replied? && |model.content| > 0 && FirstText(model.content[0]) == ""
    ensures AnswerModel(model, parse, store).body == Failed(NoResponse) ==> AnswerModel(model, parse, store).status == 500
    ensures AnswerModel(model, parse, store).body != Failed(InputRequired)
    ensures AnswerModel(model, parse, store).body == Failed(ParseFailed)
        <==> && model.Replied? && |model.content| > 0 && FirstText(model.content[0]) != ""
             && parse(Clean(FirstText(model.content[0]))).Unparseable?
    ensures ModelDrafts(model, parse).Some? ==>
              AnswerModel(model, parse, store) == AnswerBatch(ModelDrafts(model, parse).value, store)
    ensures ModelDrafts(model, parse).None? ==> AnswerModel(model, parse, store).body.Failed?
    ensures StatusConsistent(AnswerModel(model, parse, store))
  {
    MessageLengths();
    ErrorStatuses(OtherError);
    match model {
      case CallFailed(e) => ErrorStatuses(e);
      case Replied(content) =>
        if |content| > 0 {
          ReplyOutcomes(FirstText(content[0]), parse, store);
        }
    }
  }

  /** A request is answered with the 400 input error exactly when its
      transcript is missing, not a string, or blank. */
  lemma InputRejectedExactly(req: Request, model: ModelOutcome, parse: string -> Parsed, store: nat -> StoreOutcome)
    ensures Post(req, model, parse, store) == Response(400, Failed(InputRequired))
        <==> req.Body? && !(req.transcript.Str? && !Blank(req.transcript.s))
  {
    MessageLengths();
    ModelOutcomes(model, parse, store);
  }

  /** The "no response" error is given exactly when the input is accepted and
      the model replies with a first block that is empty or not text. */
  lemma NoResponseExactly(req: Request, model: ModelOutcome, parse: string -> Parsed, store: nat -> StoreOutcome)
    ensures Post(req, model, parse, store).body == Failed(NoResponse)
        <==> && req.Body? && TranscriptAccepted(req.transcript)
             && model.Replied? && |model.content| > 0
             && (model.content[0].OtherBlock? || model.content[0].text == "")
    ensures Post(req, model, parse, store).body == Failed(NoResponse) ==> Post(req, model, parse, store).status == 500
  {
    MessageLengths();
    ModelOutcomes(model, parse, store);
  }

  /** The parse error is given exactly when the parser rejects the cleaned,
      non-empty reply text. */
  lemma ParseFailedExactly(req: Request, model: ModelOutcome, parse: string -> Parsed, store: nat -> StoreOutcome)
    ensures Post(req, model, parse, store).body == Failed(ParseFailed)
        <==> && req.Body? && TranscriptAccepted(req.transcript)
             && model.Replied? && |model.content| > 0 && FirstText(model.content[0]) != ""
             && parse(Clean(FirstText(model.content[0]))) == Unparseable
  {
    MessageLengths();
    ModelOutcomes(model, parse, store);
  }

  /** Once the drafts are known, the response is the batch's. */
  lemma PostReachesBatch(req: Request, model: ModelOutcome, parse: string -> Parsed, store: nat -> StoreOutcome)
    requires ParsedDrafts(req, model, parse).Some?
    ensures Post(req, model, parse, store) == AnswerBatch(ParsedDrafts(req, model, parse).value, store)
  {
    ModelOutcomes(model, parse, store);
  }

  /** Without reaching the drafts the route never answers with a success. */
  lemma NoDraftsNoSuccess(req: Request, model: ModelOutcome, parse: string -> Parsed, store: nat -> StoreOutcome)
    requires ParsedDrafts(req, model, parse).None?
    ensures Post(req, model, parse, store).body.Failed?
  {
    if req.Body? && TranscriptAccepted(req.transcript) {
      ModelOutcomes(model, parse, store);
    }
  }

  /** The batch succeeds exactly when every draft is valid and written. */
  lemma BatchSucceedsExactly(drafts: seq<Draft>, store: nat -> StoreOutcome)
    ensures AnswerBatch(drafts, store).body.Created?
        <==> forall k :: 0 <= k < |drafts| ==> NormaliseDraft(drafts[k]).Ok? && store(k).Stored?
  {
    var rs := CreateEach(drafts, store);
    assert forall k :: 0 <= k < |drafts| ==> rs[k] == CreateOne(drafts[k], store(k));
  }

  /** A single draft without a usable title turns the whole batch into the
      generic 500 error: never a success payload. */
  lemma InvalidDraftFailsBatch(req: Request, model: ModelOutcome, parse: string -> Parsed, store: nat -> StoreOutcome, k: nat)
    requires ParsedDrafts(req, model, parse).Some?
    requires k < |ParsedDrafts(req, model, parse).value|
    requires !TitleAccepted(ParsedDrafts(req, model, parse).value[k].title)
    ensures Post(req, model, parse, store) == Response(500, Failed(ProcessingFailed))
  {
    var drafts := ParsedDrafts(req, model, parse).value;
    PostReachesBatch(req, model, parse, store);
    assert CreateEach(drafts, store)[k] == CreateOne(drafts[k], store(k));
  }

  /** The route succeeds exactly when it reaches the batch and every draft is
      both valid and written. */
  lemma SuccessExactly(req: Request, model: ModelOutcome, parse: string -> Parsed, store: nat -> StoreOutcome)
    ensures Post(req, model, parse, store).body.Created?
        <==> && ParsedDrafts(req, model, parse).Some?
             && var drafts := ParsedDrafts(req, model, parse).value;
                forall k :: 0 <= k < |drafts| ==> NormaliseDraft(drafts[k]).Ok? && store(k).Stored?
  {
    if ParsedDrafts(req, model, parse).Some? {
      PostReachesBatch(req, model, parse, store);
      BatchSucceedsExactly(ParsedDrafts(req, model, parse).value, store);
    } else {
      NoDraftsNoSuccess(req, model, parse, store);
    }
  }

  /** A successful batch has one task per draft, in draft order, each with
      its draft's normalised data and the id the store assigned. */
  lemma BatchPayload(drafts: seq<Draft>, store: nat -> StoreOutcome)
    requires AnswerBatch(drafts, store).body.Created?
    ensures var resp := AnswerBatch(drafts, store);
            && resp.status == 200
            && resp.body.count == |resp.body.tasks| == |drafts|
            && forall k :: 0 <= k < |drafts| ==>
                 && Ok(Fields(resp.body.tasks[k])) == NormaliseDraft(drafts[k])
                 && store(k).Stored? && resp.body.tasks[k].id == store(k).id
  {
    var rs := CreateEach(drafts, store);
    assert forall k :: 0 <= k < |drafts| ==> rs[k] == CreateOne(drafts[k], store(k));
  }

  /** On success there is one created task per draft, in draft order, each
      carrying its draft's normalised data and the id the store assigned, and
      `count` is the number of tasks. */
  lemma SuccessPayload(req: Request, model: ModelOutcome, parse: string -> Parsed, store: nat -> StoreOutcome)
    requires Post(req, model, parse, store).body.Created?
    ensures ParsedDrafts(req, model, parse).Some?
    ensures var resp := Post(req, model, parse, store);
            var drafts := ParsedDrafts(req, model, parse).value;
            && resp.status == 200
            && resp.body.count == |resp.body.tasks| == |drafts|
            && forall k :: 0 <= k < |drafts| ==>
                 && Ok(Fields(resp.body.tasks[k])) == NormaliseDraft(drafts[k])
                 && store(k).Stored? && resp.body.tasks[k].id == store(k).id
  {
    if ParsedDrafts(req, model, parse).None? {
      NoDraftsNoSuccess(req, model, parse, store);
    }
    PostReachesBatch(req, model, parse, store);
    BatchPayload(ParsedDrafts(req, model, parse).value, store);
  }

  /** A success carries 200; a 400 is the input error, the unknown-model
      error or an upstream 400; any other failure carries 500, except an
      upstream error that brings its own status. */
  predicate StatusConsistent(resp: Response)
  {
    && (resp.body.Created? ==> resp.status == 200)
    && (resp.status == 400 ==>
          resp.body == Failed(InputRequired) || resp.body == Failed(ModelNotFound) || resp.body == Failed(UpstreamFailed))
    && (resp.body.Failed? && resp.body.error != UpstreamFailed ==> resp.status == 400 || resp.status == 500)
  }

  lemma ResponseStatuses(req: Request, model: ModelOutcome, parse: string -> Parsed, store: nat -> StoreOutcome)
    ensures StatusConsistent(Post(req, model, parse, store))
  {
    ErrorStatuses(OtherError);
    if req.Body? && TranscriptAccepted(req.transcript) {
      ModelOutcomes(model, parse, store);
    }
  }

  lemma ErrorStatuses(e: Thrown)
    ensures StatusConsistent(ErrorResponse(e))
  {
    MessageLengths();
  }

  /** A title of spaces passes the check and is written as ''. */
  lemma WhitespaceTitleStoredEmpty(d: Draft)
    requires d.title.Str? && d.title.s != "" && Blank(d.title.s)
    ensures TitleAccepted(d.title)
    ensures NormaliseDraft(d).Ok? || NormaliseDraft(d).error != MissingTitle
    ensures NormaliseDraft(d).Ok? ==> NormaliseDraft(d).value.title == ""
  {
  }

  /** A typed creation input as the parser would hand it to the route. */
  function DraftOf(c: CreateTaskInput): Draft
  {
    Draft(Str(c.title), NullableJson(c.description), StatusJson(c.status), PriorityJson(c.priority), NullableJson(c.assignee))
  }

  function NullableJson(f: Field<Option<string>>): Json
  {
    match f
    case Absent => Undefined
    case Present(None) => Null
    case Present(Some(s)) => Str(s)
  }

  function StatusJson(f: Field<TaskStatus>): Json
  {
    if f.Present? then Str(StatusName(f.value)) else Undefined
  }

  function PriorityJson(f: Field<Priority>): Json
  {
    if f.Present? then Str(PriorityName(f.value)) else Undefined
  }

  /** An optional text field of a creation input is always accepted: trimmed,
      and null when absent, null or blank. */
  lemma NullableNormalised(f: Field<Option<string>>)
    ensures NormaliseText(NullableJson(f)).Some?
    ensures NormaliseText(NullableJson(f)).value.None? <==> f.Absent? || f.value.None? || Blank(f.value.value)
    ensures NormaliseText(NullableJson(f)).value.Some? ==>
              f.Present? && f.value.Some? && NormaliseText(NullableJson(f)).value.value == Trim(f.value.value)
  {
  }

  /** A status of a creation input is kept, an absent one defaults to todo. */
  lemma StatusNormalised(f: Field<TaskStatus>)
    ensures NormaliseStatus(StatusJson(f)) == Some(if f.Present? then f.value else Todo)
  {
    if f.Present? {
      StatusNameRoundTrip(f.value);
    }
  }

  /** A priority of a creation input is kept, an absent one defaults to
      medium. */
  lemma PriorityNormalised(f: Field<Priority>)
    ensures NormalisePriority(PriorityJson(f)) == Some(if f.Present? then f.value else Medium)
  {
    if f.Present? {
      PriorityNameRoundTrip(f.value);
    }
  }

  /** A well-typed creation input is written exactly when its title is
      non-empty, with the title, description and assignee trimmed (a blank
      optional field becoming null) and status and priority defaulted. */
  lemma CreateInputNormalised(c: CreateTaskInput)
    ensures NormaliseDraft(DraftOf(c)).Ok? <==> c.title != ""
    ensures NormaliseDraft(DraftOf(c)).Ok? ==>
              var data := NormaliseDraft(DraftOf(c)).value;
              && data.title == Trim(c.title)
              && data.status == (if c.status.Present? then c.status.value else Todo)
              && data.priority == (if c.priority.Present? then c.priority.value else Medium)
              && (data.description.None? <==>
                    c.description.Absent? || c.description.value.None? || Blank(c.description.value.value))
              && (data.description.Some? ==> c.description.Present? && c.description.value.Some?
                                               && data.description.value == Trim(c.description.value.value))
              && (data.assignee.None? <==>
                    c.assignee.Absent? || c.assignee.value.None? || Blank(c.assignee.value.value))
              && (data.assignee.Some? ==> c.assignee.Present? && c.assignee.value.Some?
                                            && data.assignee.value == Trim(c.assignee.value.value))
  {
    NullableNormalised(c.description);
    NullableNormalised(c.assignee);
    StatusNormalised(c.status);
    PriorityNormalised(c.priority);
  }
}
