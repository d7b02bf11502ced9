/** The HTTP entry points of the imagination app
    (app/apps/imagination/routes.py): creation, the provider's webhook and
    the engines listing, plus what sequences of webhook deliveries do. */
module ImaginationRoutes {
  import opened Results
  import opened PyText
  import opened PyValue
  import opened ImaginationSchemas
  import opened ImaginationModels
  import opened ImaginationServices
  import Tasks

  // ---------------------------------------------------------------------
  // create_item

  datatype Created = Created(item: Imagination, actions: seq<Action>)

  /** The record a creation request persists: the body's prompt, context
      and engine over the schema defaults (draft, no results, mode
      "imagine", no meta data). The task fields start at the task mixin's
      defaults, taken here as draft and -1. */
  function NewImagination(uid: string, userId: string, data: ImagineCreateSchema): Imagination
  {
    Imagination(
      uid := uid, userId := userId, prompt := data.prompt, context := Some(data.context),
      engine := data.engine, mode := "imagine", status := draft,
      taskStatus := Tasks.draft, taskProgress := -1, metaData := None, results := None)
  }

  /** `create_item`: persists the record, then schedules `start_processing`
      once in the background, and returns the record as persisted, without
      waiting for the submission. */
  function CreateItem(uid: string, userId: string, data: ImagineCreateSchema): (r: Created)
    ensures r.item.status == draft && r.item.results.None? && r.item.mode == "imagine"
    ensures r.item.prompt == data.prompt && r.item.engine == data.engine && r.item.uid == uid
    ensures r.actions == [Persist, SpawnStartProcessing]
  {
    Created(NewImagination(uid, userId, data), [Persist, SpawnStartProcessing])
  }

  /** A body with only a prompt yields a draft midjourney job. */
  lemma CreateDefaults(uid: string, userId: string, prompt: string)
    ensures var item := CreateItem(uid, userId, DefaultCreateSchema(prompt)).item;
            item.engine == midjourney && item.status == draft && item.results.None?
  {
  }

  /** The background `start_processing` of a new midjourney job submits the
      prompt with the job's own webhook url as the callback. */
  lemma CreatedJobSubmits(uid: string, userId: string, data: ImagineCreateSchema, rootUrl: string, reply: Option<Dict>)
    requires data.engine == midjourney
    ensures var item := CreateItem(uid, userId, data).item;
            ImagineRequest(item, rootUrl, reply).actions[0] == CallImagine(data.prompt, WebhookUrl(rootUrl, uid))
  {
  }

  /** A new job for any other engine is never submitted: the error is
      swallowed and the record stays a draft with nothing scheduled. */
  lemma UnsupportedEngineStaysDraft(uid: string, userId: string, data: ImagineCreateSchema, rootUrl: string, reply: Option<Dict>)
    requires data.engine != midjourney
    ensures var item := CreateItem(uid, userId, data).item;
            ImagineRequest(item, rootUrl, reply) == Step(item, [])
  {
  }

  // ---------------------------------------------------------------------
  // webhook

  datatype WebhookResponse = CancelledMessage | EmptyResponse

  /** `ImaginationRouter.webhook`: a cancelled record is answered with the
      cancellation message and left alone; any other record, including a
      completed or failed one, gets the update and the answer `{}`. An
      exception in the update propagates. */
  function Webhook(item: Imagination, data: ImagineWebhookData, assets: AssetInputs): (r: Result<(WebhookResponse, Step)>)
    ensures item.status == cancelled ==> r == Ok((CancelledMessage, Step(item, [])))
    ensures item.status != cancelled ==>
              match ProcessImagineWebhook(item, data, assets)
              case Err(e) => r == Err(e)
              case Ok(step) => r == Ok((EmptyResponse, step))
  {
    if item.status == cancelled then Ok((CancelledMessage, Step(item, [])))
    else
      match ProcessImagineWebhook(item, data, assets)
      case Err(e) => Err(e)
      case Ok(step) => Ok((EmptyResponse, step))
  }

  /** The record after a sequence of webhook deliveries; a delivery that
      raises leaves the record as it was. */
  function DeliverAll(item: Imagination, deliveries: seq<ImagineWebhookData>, assets: AssetInputs): Imagination
    decreases |deliveries|
  {
    if |deliveries| == 0 then item
    else
      var next := match Webhook(item, deliveries[0], assets)
        case Err(_) => item
        case Ok((_, step)) => step.job;
      DeliverAll(next, deliveries[1..], assets)
  }

  /** Cancellation is final at the route: no sequence of deliveries changes
      a cancelled record. */
  lemma {:induction false} CancelledIsFinal(item: Imagination, deliveries: seq<ImagineWebhookData>, assets: AssetInputs)
    requires item.status == cancelled
    ensures DeliverAll(item, deliveries, assets) == item
    decreases |deliveries|
  {
    if |deliveries| > 0 {
      CancelledIsFinal(item, deliveries[1..], assets);
    }
  }

  /** Other terminal statuses are not protected: a completed record that
      receives a "queue" delivery is back in the queue. */
  lemma CompletedIsNotFinal(item: Imagination, assets: AssetInputs)
    requires item.status == completed
    ensures var d := ImagineWebhookData(item.prompt, queue, 5, None, None);
            DeliverAll(item, [d], assets).status == queue
  {
    var d := ImagineWebhookData(item.prompt, queue, 5, None, None);
    NoTerminalGuard(item, assets);
    assert [d][1..] == [];
  }

  /** No sequence of deliveries pushes the retry counter past the default
      limit, starting from a counter within it. */
  lemma {:induction false} RetryBoundAcrossDeliveries(item: Imagination, deliveries: seq<ImagineWebhookData>, assets: AssetInputs)
    requires JobRetryCount(item).Ok? && JobRetryCount(item).value <= DefaultMaxRetries
    ensures var after := DeliverAll(item, deliveries, assets);
            JobRetryCount(after).Ok? && JobRetryCount(after).value <= DefaultMaxRetries
    decreases |deliveries|
  {
    if |deliveries| > 0 {
      var d := deliveries[0];
      if item.status != cancelled && d.status == error {
        RetryKeepsBound(item, d.error, DefaultMaxRetries);
      }
      var next := match Webhook(item, d, assets)
        case Err(_) => item
        case Ok((_, step)) => step.job;
      RetryBoundAcrossDeliveries(next, deliveries[1..], assets);
    }
  }

  /** `k` error deliveries within the limit each count one retry and leave
      the status alone. */
  lemma {:induction false} ErrorDeliveriesCount(item: Imagination, d: ImagineWebhookData, k: nat, assets: AssetInputs)
    requires d.status == error && item.status != cancelled
    requires JobRetryCount(item).Ok? && JobRetryCount(item).value + k <= DefaultMaxRetries
    ensures var after := DeliverAll(item, seq(k, _ => d), assets);
            after.status == item.status && JobRetryCount(after) == Ok(JobRetryCount(item).value + k)
    decreases k
  {
    if k > 0 {
      var next := Retry(item, d.error, DefaultMaxRetries).value.step.job;
      assert seq(k, _ => d)[1..] == seq(k - 1, _ => d);
      ErrorDeliveriesCount(next, d, k - 1, assets);
    }
  }

  /** From a fresh record, five error deliveries are retried and the sixth
      fails the job, with the counter at the limit. */
  lemma SixthErrorFails(item: Imagination, d: ImagineWebhookData, assets: AssetInputs)
    requires d.status == error && item.status != cancelled && item.metaData.None?
    ensures var after := DeliverAll(item, seq(6, _ => d), assets);
            after.status == error && JobRetryCount(after) == Ok(DefaultMaxRetries)
  {
    ErrorDeliveriesCount(item, d, 5, assets);
    DeliverAllSplit(item, seq(5, _ => d), [d], assets);
    assert seq(5, _ => d) + [d] == seq(6, _ => d);
    var five := DeliverAll(item, seq(5, _ => d), assets);
    assert [d][1..] == [];
  }

  /** Delivering `a` then `b` is delivering `a + b`. */
  lemma {:induction false} DeliverAllSplit(item: Imagination, a: seq<ImagineWebhookData>, b: seq<ImagineWebhookData>, assets: AssetInputs)
    ensures DeliverAll(item, a + b, assets) == DeliverAll(DeliverAll(item, a, assets), b, assets)
    decreases |a|
  {
    if |a| == 0 {
      assert a + b == b;
    } else {
      assert (a + b)[0] == a[0];
      assert (a + b)[1..] == a[1..] + b;
      var next := match Webhook(item, a[0], assets)
        case Err(_) => item
        case Ok((_, step)) => step.job;
      DeliverAllSplit(next, a[1..], b, assets);
    }
  }

  /** A poll that ends in a terminal status still schedules one more poll,
      and that poll does nothing: the chain stops one step later. */
  lemma PollChainStopsAfterTerminal(job: Imagination, reply: Option<PollReply>, next: Option<PollReply>, assets: AssetInputs)
    requires IsDone(ImagineUpdate(job, reply, assets).job.status)
    ensures var after := ImagineUpdate(job, reply, assets).job;
            ImagineUpdate(after, next, assets) == Step(after, [])
  {
  }

  // ---------------------------------------------------------------------
  // engines

  /** `engines`: one entry per engine, in declaration order, each with its
      thumbnail url and the flat price. */
  function Engines(): (r: seq<ImaginationEnginesSchema>)
    ensures |r| == |AllEngines| == 4
    ensures forall i :: 0 <= i < |r| ==>
              && r[i].engine == AllEngines[i]
              && StartsWith(r[i].thumbnailUrl, ThumbnailPrefix)
              && r[i].thumbnailUrl[|ThumbnailPrefix|..] == EngineValue(AllEngines[i]) + ".png"
              && r[i].price == 0.1
  {
    seq(|AllEngines|, i requires 0 <= i < |AllEngines| => EngineSchemaFromModel(AllEngines[i]))
  }

  /** Every engine is listed, and none twice. */
  lemma EnginesListEachOnce(e: ImaginationEngines)
    ensures exists i :: 0 <= i < |Engines()| && Engines()[i].engine == e
    ensures forall i, j :: 0 <= i < j < |Engines()| ==> Engines()[i].engine != Engines()[j].engine
  {
    var r := Engines();
    var i := match e
      case midjourney => 0
      case flux => 1
      case dalle => 2
      case leonardo => 3;
    assert r[i].engine == e;
  }
}
