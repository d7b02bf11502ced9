/** The persisted job record (`Imagination`), its URLs and its bounded
    retry counter (app/apps/imagination/models.py). */
module ImaginationModels {
  import opened Results
  import opened PyText
  import opened PyValue
  import opened ImaginationSchemas
  import Tasks

  datatype ImagineResponse = ImagineResponse(url: string, width: int, height: int)

  /** One image-generation job. `metaData` holds the provider's reply
      (its task id under "uuid") and the retry counter under "retry_count". */
  datatype Imagination = Imagination(
    uid: string,
    userId: string,
    prompt: string,
    context: Option<Dict>,
    engine: ImaginationEngines,
    mode: string,
    status: ImaginationStatus,
    taskStatus: Tasks.TaskStatusEnum,
    taskProgress: int,
    metaData: Option<Dict>,
    results: Option<seq<ImagineResponse>>)

  /** The progress reports the handlers persist. */
  datatype Report =
    | RequestedReport
    | CompletedReport
    | UpdateReport(status: ImaginationStatus)
    | RetryReport(uid: string, count: int)
    | FailedReport(message: Option<string>)

  /** Side effects a handler asks for instead of performing them. */
  datatype Action =
    | Persist                                // insert the new record
    | SaveReport(report: Report, quiet: bool) // quiet: `emit=False` was passed
    | SaveAndEmit
    | SpawnStartProcessing                   // asyncio task running start_processing
    | SpawnImagineUpdate                     // asyncio task running the next poll
    | CallImagine(prompt: string, callback: string)
    | CallGetResult(taskId: Value)

  /** A handler's effect: the record afterwards and the actions requested. */
  datatype Step = Step(job: Imagination, actions: seq<Action>)

  const DefaultMaxRetries := 5

  const ItemPath := "/v1/apps/imagine/imagination/"
  const WebhookSuffix := "/webhook"

  /** `Imagination.item_url`, built from the configured root url. */
  function ItemUrl(rootUrl: string, uid: string): string
  {
    "https://" + rootUrl + ItemPath + uid
  }

  /** `Imagination.webhook_url`: the item url followed by "/webhook". */
  function WebhookUrl(rootUrl: string, uid: string): (r: string)
    ensures StartsWith(r, ItemUrl(rootUrl, uid))
    ensures r[|ItemUrl(rootUrl, uid)|..] == WebhookSuffix
  {
    var item := ItemUrl(rootUrl, uid);
    var r := item + WebhookSuffix;
    assert r[..|item|] == item;
    r
  }

  /** Reads the job id back out of a webhook url. */
  function UidOfWebhookUrl(rootUrl: string, url: string): Option<string>
  {
    var head := "https://" + rootUrl + ItemPath;
    if |head| + |WebhookSuffix| <= |url| && url[..|head|] == head
       && url[|url| - |WebhookSuffix|..] == WebhookSuffix
    then Some(url[|head|..|url| - |WebhookSuffix|])
    else None
  }

  /** The webhook url names its job: the id can be read back from it, so
      two jobs never share a callback target. */
  lemma WebhookUrlNamesJob(rootUrl: string, uid: string)
    ensures UidOfWebhookUrl(rootUrl, WebhookUrl(rootUrl, uid)) == Some(uid)
  {
    var head := "https://" + rootUrl + ItemPath;
    var url := WebhookUrl(rootUrl, uid);
    assert url == head + uid + WebhookSuffix;
    assert url[..|head|] == head;
    assert url[|url| - |WebhookSuffix|..] == WebhookSuffix;
    assert url[|head|..|url| - |WebhookSuffix|] == uid;
  }

  lemma WebhookUrlInjective(rootUrl: string, u1: string, u2: string)
    requires WebhookUrl(rootUrl, u1) == WebhookUrl(rootUrl, u2)
    ensures u1 == u2
  {
    WebhookUrlNamesJob(rootUrl, u1);
    WebhookUrlNamesJob(rootUrl, u2);
  }

  // ---------------------------------------------------------------------
  // retry / fail

  /** `meta_data.get("retry_count", 0)` as the comparison with max_retries
      sees it: a missing key is 0, a bool counts as 0 or 1, and None or a
      string make the comparison raise TypeError. */
  function RetryCount(meta: Dict): Result<int>
  {
    if "retry_count" !in meta then Ok(0)
    else match meta["retry_count"]
      case VInt(n) => Ok(n)
      case VBool(b) => Ok(if b then 1 else 0)
      case VNone => Err(TypeError)
      case VStr(_) => Err(TypeError)
  }

  /** The counter of a record; a missing meta_data counts as 0. */
  function JobRetryCount(job: Imagination): (r: Result<int>)
    ensures job.metaData.None? ==> r == Ok(0)
    ensures job.metaData.Some? && "retry_count" !in job.metaData.value ==> r == Ok(0)
  {
    RetryCount(if job.metaData.Some? then job.metaData.value else map[])
  }

  /** `self.meta_data or {}`. */
  function MetaOrEmpty(job: Imagination): Dict
  {
    if job.metaData.Some? then job.metaData.value else map[]
  }

  /** `Imagination.fail`: status and task status become error; the failure
      message is reported quietly and the record saved and emitted. */
  function Fail(job: Imagination, message: Option<string>): (r: Step)
    ensures r.job == job.(status := error, taskStatus := Tasks.error)
    ensures r.actions == [SaveReport(FailedReport(message), true), SaveAndEmit]
  {
    Step(job.(status := error, taskStatus := Tasks.error),
         [SaveReport(FailedReport(message), true), SaveAndEmit])
  }

  /** What `retry` did and returned. */
  datatype RetryStep = RetryStep(step: Step, returned: int)

  /** `Imagination.retry`: below the limit the counter goes up by one, a new
      submission is spawned and the new count returned; at or over the limit
      the job fails and -1 is returned. */
  function Retry(job: Imagination, message: Option<string>, maxRetries: int): (r: Result<RetryStep>)
    ensures r.Err? <==> JobRetryCount(job).Err?
    ensures r.Ok? ==> SpawnImagineUpdate !in r.value.step.actions
    ensures r.Ok? && JobRetryCount(job).value < maxRetries ==>
              && r.value.returned == JobRetryCount(job).value + 1
              && JobRetryCount(r.value.step.job) == Ok(JobRetryCount(job).value + 1)
              && r.value.step.job.status == job.status
              && r.value.step.job.taskStatus == job.taskStatus
              && r.value.step.job.(metaData := job.metaData) == job
              && r.value.step.job.metaData.Some?
              && r.value.step.job.metaData.value.Keys == MetaOrEmpty(job).Keys + {"retry_count"}
              && (forall k :: k in MetaOrEmpty(job) && k != "retry_count" ==>
                    r.value.step.job.metaData.value[k] == MetaOrEmpty(job)[k])
              && SpawnStartProcessing in r.value.step.actions
    ensures r.Ok? && JobRetryCount(job).value >= maxRetries ==>
              && r.value.returned == -1
              && r.value.step.job.status == error
              && r.value.step.job.taskStatus == Tasks.error
              && JobRetryCount(r.value.step.job) == JobRetryCount(job)
              && r.value.step.job.metaData == Some(MetaOrEmpty(job))
              && r.value.step.job.(status := job.status, taskStatus := job.taskStatus, metaData := job.metaData) == job
              && r.value.step.actions == [SaveReport(FailedReport(message), true), SaveAndEmit]
  {
    var meta := MetaOrEmpty(job);
    match RetryCount(meta)
    case Err(e) => Err(e)
    case Ok(count) =>
      if count < maxRetries then
        var job' := job.(metaData := Some(meta["retry_count" := VInt(count + 1)]));
        Ok(RetryStep(
          Step(job', [SaveReport(RetryReport(job.uid, count + 1), true), SaveAndEmit, SpawnStartProcessing]),
          count + 1))
      else
        Ok(RetryStep(Fail(job.(metaData := Some(meta)), message), -1))
  }

  /** `retry` never pushes the counter past the limit: from a count within
      the limit the count stays within it. */
  lemma RetryKeepsBound(job: Imagination, message: Option<string>, maxRetries: int)
    requires JobRetryCount(job).Ok? && JobRetryCount(job).value <= maxRetries
    ensures Retry(job, message, maxRetries).Ok?
    ensures JobRetryCount(Retry(job, message, maxRetries).value.step.job).Ok?
    ensures JobRetryCount(Retry(job, message, maxRetries).value.step.job).value <= maxRetries
  {
  }

  /** Calls `retry` `n` times in a row, collecting the returned values. */
  function RetryTimes(job: Imagination, n: nat, maxRetries: int): Result<(Imagination, seq<int>)>
    decreases n
  {
    if n == 0 then Ok((job, []))
    else match Retry(job, None, maxRetries)
      case Err(e) => Err(e)
      case Ok(rs) =>
        match RetryTimes(rs.step.job, n - 1, maxRetries)
        case Err(e) => Err(e)
        case Ok((j, returned)) => Ok((j, [rs.returned] + returned))
  }

  /** From counter `c`, `k` successive retries within the limit return
      c+1, ..., c+k, leave the counter at c+k and leave the status alone. */
  lemma {:induction false} RetriesCountUp(job: Imagination, k: nat, maxRetries: int)
    requires JobRetryCount(job).Ok?
    requires JobRetryCount(job).value + k <= maxRetries
    ensures RetryTimes(job, k, maxRetries).Ok?
    ensures var (j, returned) := RetryTimes(job, k, maxRetries).value;
            && |returned| == k
            && (forall i :: 0 <= i < k ==> returned[i] == JobRetryCount(job).value + i + 1)
            && JobRetryCount(j) == Ok(JobRetryCount(job).value + k)
            && j.status == job.status
    decreases k
  {
    if k > 0 {
      var rs := Retry(job, None, maxRetries).value;
      RetriesCountUp(rs.step.job, k - 1, maxRetries);
    }
  }

  /** Starting from no counter and the default limit of 5, six retries in a
      row return 1, 2, 3, 4, 5, -1 and leave the job failed with counter 5. */
  lemma SixRetries(job: Imagination)
    requires job.metaData.None?
    ensures RetryTimes(job, 6, DefaultMaxRetries).Ok?
    ensures RetryTimes(job, 6, DefaultMaxRetries).value.1 == [1, 2, 3, 4, 5, -1]
    ensures RetryTimes(job, 6, DefaultMaxRetries).value.0.status == error
    ensures JobRetryCount(RetryTimes(job, 6, DefaultMaxRetries).value.0) == Ok(5)
  {
    RetriesCountUp(job, 5, DefaultMaxRetries);
    var five := RetryTimes(job, 5, DefaultMaxRetries).value;
    RetryTimesSplit(job, 5, DefaultMaxRetries);
    var last := Retry(five.0, None, DefaultMaxRetries).value;
    assert last.returned == -1;
  }

  /** Retrying n+1 times is retrying n times and then once more. */
  lemma {:induction false} RetryTimesSplit(job: Imagination, n: nat, maxRetries: int)
    requires RetryTimes(job, n, maxRetries).Ok?
    ensures var (j, returned) := RetryTimes(job, n, maxRetries).value;
            RetryTimes(job, n + 1, maxRetries) ==
              match Retry(j, None, maxRetries)
              case Err(e) => Err(e)
              case Ok(rs) => Ok((rs.step.job, returned + [rs.returned]))
    decreases n
  {
    if n == 0 {
      match Retry(job, None, maxRetries)
      case Err(e) =>
      case Ok(rs) =>
        assert RetryTimes(rs.step.job, 0, maxRetries) == Ok((rs.step.job, []));
        assert [rs.returned] + [] == [] + [rs.returned];
    } else {
      var rs := Retry(job, None, maxRetries).value;
      RetryTimesSplit(rs.step.job, n - 1, maxRetries);
      var (j, returned) := RetryTimes(rs.step.job, n - 1, maxRetries).value;
      match Retry(j, None, maxRetries)
      case Err(e) =>
      case Ok(rs2) =>
        assert [rs.returned] + (returned + [rs2.returned]) == ([rs.returned] + returned) + [rs2.returned];
    }
  }
}
