/** The task status vocabulary of the persistence library the job records
    extend; only the members the imagination code assigns appear here. */
module Tasks {
  datatype TaskStatusEnum = none | draft | init | processing | completed | error
}

/** Status vocabulary, engines and wire schemas of the image-generation
    ("imagination") jobs (app/apps/imagination/schemas.py). */
module ImaginationSchemas {
  import opened Results
  import opened PyText
  import opened PyValue
  import Tasks

  // ---------------------------------------------------------------------
  // ImaginationStatus

  datatype ImaginationStatus =
    | none | draft | init | queue | waiting | running | processing
    | done | completed | error | cancelled

  /** The enum member's string value. */
  function StatusValue(s: ImaginationStatus): string
  {
    match s
    case none => "none"
    case draft => "draft"
    case init => "init"
    case queue => "queue"
    case waiting => "waiting"
    case running => "running"
    case processing => "processing"
    case done => "done"
    case completed => "completed"
    case error => "error"
    case cancelled => "cancelled"
  }

  /** Enum validation of a string field: the member whose value it is, or
      None for a string that is no member's value. */
  function StatusFromValue(v: string): (r: Option<ImaginationStatus>)
    ensures r.Some? ==> StatusValue(r.value) == v
  {
    if v == "none" then Some(none)
    else if v == "draft" then Some(draft)
    else if v == "init" then Some(init)
    else if v == "queue" then Some(queue)
    else if v == "waiting" then Some(waiting)
    else if v == "running" then Some(running)
    else if v == "processing" then Some(processing)
    else if v == "done" then Some(done)
    else if v == "completed" then Some(completed)
    else if v == "error" then Some(error)
    else if v == "cancelled" then Some(cancelled)
    else None
  }

  /** Every member validates back from its own value, so the values are
      pairwise distinct. */
  lemma StatusValueRoundTrip(s: ImaginationStatus)
    ensures StatusFromValue(StatusValue(s)) == Some(s)
  {
  }

  /** `ImaginationStatus.from_midjourney`: the provider's status vocabulary,
      with every unrecognised string mapped to `error`. */
  function FromMidjourney(status: string): (r: ImaginationStatus)
    ensures r in {init, queue, waiting, processing, completed, error}
    ensures status == "initialized" ==> r == init
    ensures status == "queue" ==> r == queue
    ensures status == "waiting" ==> r == waiting
    ensures status == "running" ==> r == processing
    ensures status == "completed" ==> r == completed
    ensures r == error <==>
              status !in {"initialized", "queue", "waiting", "running", "completed"}
  {
    var table := map[
      "initialized" := init,
      "queue" := queue,
      "waiting" := waiting,
      "running" := processing,
      "completed" := completed,
      "error" := error
    ];
    if status in table then table[status] else error
  }

  /** The mapping never produces none, draft, running, done or cancelled,
      and the internal names "init" and "processing" are not provider
      names: they map to error. */
  lemma FromMidjourneyRange(status: string)
    ensures FromMidjourney(status) !in {none, draft, running, done, cancelled}
    ensures FromMidjourney("init") == error
    ensures FromMidjourney("processing") == error
  {
  }

  /** A webhook's status field is an ImaginationStatus, so the mapping is
      applied to member values: only queue, waiting, running, completed and
      error survive; every other member turns into error. */
  lemma FromMidjourneyOnMembers(s: ImaginationStatus)
    ensures s in {queue, waiting, completed, error} ==> FromMidjourney(StatusValue(s)) == s
    ensures s == running ==> FromMidjourney(StatusValue(s)) == processing
    ensures s in {none, draft, init, processing, done, cancelled} ==>
              FromMidjourney(StatusValue(s)) == error
  {
  }

  /** `ImaginationStatus.task_status`: total over the enum. */
  function TaskStatusOf(s: ImaginationStatus): (r: Tasks.TaskStatusEnum)
    ensures r == Tasks.processing <==> s in {queue, waiting, running, processing}
    ensures r == Tasks.completed <==> s in {done, completed, cancelled}
    ensures r == Tasks.error <==> s == error
    ensures s == none ==> r == Tasks.none
    ensures s == draft ==> r == Tasks.draft
    ensures s == init ==> r == Tasks.init
  {
    match s
    case none => Tasks.none
    case draft => Tasks.draft
    case init => Tasks.init
    case queue | waiting | running | processing => Tasks.processing
    case done | completed | cancelled => Tasks.completed
    case error => Tasks.error
  }

  /** `ImaginationStatus.is_done`. */
  predicate IsDone(s: ImaginationStatus) {
    s == done || s == completed || s == error || s == cancelled
  }

  /** The terminal statuses are exactly those whose task status is final
      (completed or error). */
  lemma IsDoneIffFinalTask(s: ImaginationStatus)
    ensures IsDone(s) <==> TaskStatusOf(s) in {Tasks.completed, Tasks.error}
    ensures IsDone(s) <==> s in {done, completed, error, cancelled}
  {
  }

  // ---------------------------------------------------------------------
  // ImaginationEngines

  datatype ImaginationEngines = midjourney | flux | dalle | leonardo

  function EngineValue(e: ImaginationEngines): string
  {
    match e
    case midjourney => "midjourney"
    case flux => "flux"
    case dalle => "dalle"
    case leonardo => "leonardo"
  }

  /** The members in declaration order, as iterating the enum yields them. */
  const AllEngines: seq<ImaginationEngines> := [midjourney, flux, dalle, leonardo]

  const ThumbnailPrefix := "https://cdn.metisai.com/images/engines/"

  /** `ImaginationEngines.thumbnail_url`. */
  function ThumbnailUrl(e: ImaginationEngines): string
  {
    ThumbnailPrefix + EngineValue(e) + ".png"
  }

  /** `ImaginationEngines.price`: the same for every engine. */
  const EnginePrice: real := 0.1

  datatype ImaginationEnginesSchema =
    ImaginationEnginesSchema(engine: ImaginationEngines, thumbnailUrl: string, price: real)

  /** `ImaginationEnginesSchema.from_model`. */
  function EngineSchemaFromModel(e: ImaginationEngines): (r: ImaginationEnginesSchema)
    ensures r.engine == e
    ensures StartsWith(r.thumbnailUrl, ThumbnailPrefix)
    ensures r.thumbnailUrl[|ThumbnailPrefix|..] == EngineValue(e) + ".png"
    ensures r.price == 0.1
  {
    var url := ThumbnailUrl(e);
    assert url[..|ThumbnailPrefix|] == ThumbnailPrefix;
    assert url[|ThumbnailPrefix|..] == EngineValue(e) + ".png";
    ImaginationEnginesSchema(e, url, EnginePrice)
  }

  // ---------------------------------------------------------------------
  // Wire schemas

  /** `ImagineCreateSchema`: the body of a creation request. */
  datatype ImagineCreateSchema =
    ImagineCreateSchema(prompt: string, context: Dict, engine: ImaginationEngines)

  /** The schema with only the prompt given: empty context, midjourney. */
  function DefaultCreateSchema(prompt: string): (r: ImagineCreateSchema)
    ensures r.prompt == prompt && r.context == map[] && r.engine == midjourney
  {
    ImagineCreateSchema(prompt, map[], midjourney)
  }

  /** What can arrive in a webhook's `percentage` field. */
  datatype PercentInput =
    | PercentNone
    | PercentInt(n: int)
    | PercentFloat(x: real)
    | PercentText(text: string)

  /** Whether a number has no fractional part. */
  predicate IsWhole(x: real) {
    x.Floor as real == x
  }

  /** `ImagineWebhookData.validate_percentage` followed by the `int` field
      check: None reads as -1; numbers are clamped into [-1, 100]; strings
      lose every "%" and are parsed with no clamping at all. An unparsable
      string is a validation error, and so is a float that is still
      fractional after clamping. */
  function ValidatePercentage(v: PercentInput): (r: Result<int>)
    ensures v.PercentNone? ==> r == Ok(-1)
    ensures v.PercentInt? ==> r.Ok? && -1 <= r.value <= 100
    ensures v.PercentInt? && v.n < -1 ==> r == Ok(-1)
    ensures v.PercentInt? && v.n > 100 ==> r == Ok(100)
    ensures v.PercentInt? && -1 <= v.n <= 100 ==> r == Ok(v.n)
    ensures v.PercentFloat? ==> (r.Ok? <==> v.x < -1.0 || 100.0 < v.x || IsWhole(v.x))
    ensures v.PercentFloat? && r.Ok? ==> -1 <= r.value <= 100
    ensures v.PercentFloat? && v.x < -1.0 ==> r == Ok(-1)
    ensures v.PercentFloat? && 100.0 < v.x ==> r == Ok(100)
    ensures v.PercentFloat? && -1.0 <= v.x <= 100.0 && r.Ok? ==> r.value as real == v.x
    ensures v.PercentText? ==>
              match ParseInt(RemoveChar(v.text, '%'))
              case None => r.Err?
              case Some(n) => r == Ok(n)
  {
    match v
    case PercentNone => Ok(-1)
    case PercentText(text) =>
      (match ParseInt(RemoveChar(text, '%'))
       case None => Err(ValueError("invalid literal for int()"))
       case Some(n) => Ok(n))
    case PercentInt(n) =>
      if n < -1 then Ok(-1)
      else if n > 100 then Ok(100)
      else Ok(n)
    case PercentFloat(x) =>
      if x < -1.0 then Ok(-1)
      else if x > 100.0 then Ok(100)
      else if IsWhole(x) then Ok(x.Floor)
      else Err(ValueError("fractional part"))
  }

  /** A rendered integer followed by "%" validates to that integer, however
      large or small: the string path is never clamped. */
  lemma PercentTextNotClamped(n: int)
    ensures ValidatePercentage(PercentText(IntToString(n) + "%")) == Ok(n)
  {
    var s := IntToString(n);
    NoPercentInRendering(n);
    RemoveCharAppend(s, "%", '%');
    assert RemoveChar("%", '%') == "";
    assert RemoveChar(s + "%", '%') == s;
    ParseIntToString(n);
  }

  lemma NoPercentInRendering(n: int)
    ensures '%' !in IntToString(n)
  {
    var s := IntToString(n);
    if n < 0 {
      forall i | 0 <= i < |s| ensures s[i] != '%' {
        if i > 0 {
          assert s[1..][i - 1] == s[i];
        }
      }
    }
  }

  /** The normalisation examples for None and integers. */
  lemma PercentageExamples()
    ensures ValidatePercentage(PercentNone) == Ok(-1)
    ensures ValidatePercentage(PercentInt(150)) == Ok(100)
    ensures ValidatePercentage(PercentInt(-5)) == Ok(-1)
    ensures ValidatePercentage(PercentInt(45)) == Ok(45)
  {
  }

  /** "45%" reads as 45. */
  lemma PercentTextExample()
    ensures ValidatePercentage(PercentText("45%")) == Ok(45)
  {
    assert NatToDecimal(4) == "4";
    var s := IntToString(45);
    assert s == "45";
    assert s + "%" == "45%";
    PercentTextNotClamped(45);
  }

  /** A text that is no number is rejected. */
  lemma PercentTextRejected()
    ensures ValidatePercentage(PercentText("abc")).Err?
  {
    var s := "abc";
    assert s[0] == 'a';
    assert '%' !in s;
    assert ParseInt(s) == None;
  }

  /** Floats are clamped like integers; a whole float inside the range
      becomes that integer, a fractional one is rejected by the field. */
  lemma FloatPercentageExamples()
    ensures ValidatePercentage(PercentFloat(150.5)) == Ok(100)
    ensures ValidatePercentage(PercentFloat(-3.2)) == Ok(-1)
    ensures ValidatePercentage(PercentFloat(45.0)) == Ok(45)
    ensures ValidatePercentage(PercentFloat(45.5)).Err?
  {
    assert (45.0).Floor == 45;
    assert (45.5).Floor == 45;
  }

  /** `ImagineWebhookData`, once validated. */
  datatype ImagineWebhookData = ImagineWebhookData(
    prompt: string,
    status: ImaginationStatus,
    percentage: int,
    result: Option<Dict>,
    error: Option<string>)

  /** Validation of a raw payload into `ImagineWebhookData`: the status must
      be a member value and the percentage must pass its validator. */
  function ParseWebhookData(
    prompt: string, status: string, percentage: PercentInput,
    result: Option<Dict>, error: Option<string>): (r: Result<ImagineWebhookData>)
    ensures r.Ok? <==> StatusFromValue(status).Some? && ValidatePercentage(percentage).Ok?
    ensures r.Ok? ==> StatusValue(r.value.status) == status
    ensures r.Ok? ==> r.value.percentage == ValidatePercentage(percentage).value
    ensures r.Ok? ==> r.value.prompt == prompt && r.value.result == result && r.value.error == error
  {
    match StatusFromValue(status)
    case None => Err(ValueError("status"))
    case Some(s) =>
      match ValidatePercentage(percentage)
      case Err(e) => Err(e)
      case Ok(p) => Ok(ImagineWebhookData(prompt, s, p, result, error))
  }
}
