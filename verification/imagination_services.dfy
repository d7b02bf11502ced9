/** The job lifecycle handlers (app/apps/imagination/services.py): the
    upload file name, asset finalisation, one webhook/poll update, the
    submission and the poll step. Network calls are inputs; asynchronous
    follow-ups are returned as actions. */
module ImaginationServices {
  import opened Results
  import opened PyText
  import opened PyValue
  import opened ImaginationSchemas
  import opened ImaginationModels
  import Tasks

  // ---------------------------------------------------------------------
  // sanitize_filename

  /** Characters the regex `[^a-zA-Z0-9_. ]` leaves in place. */
  predicate KeptByRegex(c: char) {
    ('a' <= c <= 'z') || ('A' <= c <= 'Z') || ('0' <= c <= '9') || c == '_' || c == '.' || c == ' '
  }

  /** Characters a sanitised file name may contain. */
  predicate IsFilenameChar(c: char) {
    ('a' <= c <= 'z') || ('A' <= c <= 'Z') || ('0' <= c <= '9') || c == '_' || c == '.'
  }

  /** `re.sub(r"[^a-zA-Z0-9_. ]", "", s)`: keeps exactly the kept characters,
      in order (with RemoveDisallowedAppend, these pin the result). */
  function RemoveDisallowed(s: string): (r: string)
    ensures |r| <= |s|
    ensures forall i :: 0 <= i < |r| ==> KeptByRegex(r[i])
    ensures (forall i :: 0 <= i < |s| ==> KeptByRegex(s[i])) ==> r == s
    ensures |s| == 1 && !KeptByRegex(s[0]) ==> r == ""
  {
    if |s| == 0 then ""
    else
      assert s == [s[0]] + s[1..];
      (if KeptByRegex(s[0]) then [s[0]] else "") + RemoveDisallowed(s[1..])
  }

  /** The substitution works character by character: it distributes over
      concatenation. */
  lemma {:induction false} RemoveDisallowedAppend(a: string, b: string)
    ensures RemoveDisallowed(a + b) == RemoveDisallowed(a) + RemoveDisallowed(b)
    decreases |a|
  {
    if |a| > 0 {
      assert (a + b)[1..] == a[1..] + b;
      assert (a + b)[0] == a[0];
      RemoveDisallowedAppend(a[1..], b);
    } else {
      assert a + b == b;
    }
  }

  /** The part of the prompt the name is made from: the second
      comma-separated segment when there is a comma, stripped. */
  function NameSource(prompt: string): string
  {
    var parts := Split(prompt, ',');
    Strip(if |parts| > 1 then parts[1] else prompt)
  }

  /** Where the name is cut: the first space at index 80 or later of the
      stripped source, unless there is none or it lies past 120, in which
      case 100. */
  function CutPosition(source: string): (position: int)
    ensures 80 <= position <= 120
    ensures position == 100 || (position < |source| && source[position] == ' ')
    ensures position != 100 ==> forall k :: 80 <= k < position ==> source[k] != ' '
    ensures (exists k :: 80 <= k <= 120 && k < |source| && source[k] == ' ') ==>
              && position < |source| && source[position] == ' '
              && forall k :: 80 <= k < position ==> source[k] != ' '
    ensures (forall k :: 80 <= k <= 120 && k < |source| ==> source[k] != ' ') ==> position == 100
  {
    var position := Find(source, ' ', 80);
    if position > 120 || position == -1 then 100 else position
  }

  /** The name made from an already stripped source: disallowed characters
      removed, spaces turned into underscores, cut at the cut position. */
  function SanitizeSource(source: string): (r: string)
    ensures forall i :: 0 <= i < |r| ==> IsFilenameChar(r[i])
    ensures |r| <= 120
    ensures var full := ReplaceChar(RemoveDisallowed(source), ' ', '_');
            && |r| <= |full| && r == full[..|r|]
            && |r| == (if CutPosition(source) < |full| then CutPosition(source) else |full|)
  {
    var position := CutPosition(source);
    var sanitized := ReplaceChar(RemoveDisallowed(source), ' ', '_');
    if position < |sanitized| then sanitized[..position] else sanitized
  }

  /** `sanitize_filename`: only the (stripped) name source matters. */
  function SanitizeFilename(prompt: string): (r: string)
    ensures forall i :: 0 <= i < |r| ==> IsFilenameChar(r[i])
    ensures |r| <= 120
    ensures var full := ReplaceChar(RemoveDisallowed(NameSource(prompt)), ' ', '_');
            && |r| <= |full| && r == full[..|r|]
            && |r| == (if CutPosition(NameSource(prompt)) < |full| then CutPosition(NameSource(prompt)) else |full|)
  {
    SanitizeSource(NameSource(prompt))
  }

  lemma NameSourceOfThreeSegments(a: string, b: string, rest: string)
    requires ',' !in a && ',' !in b
    ensures NameSource(a + "," + b + "," + rest) == Strip(b)
  {
    SplitAfterSegment(a, ',', b + "," + rest);
    SplitAfterSegment(b, ',', rest);
    assert a + "," + b + "," + rest == a + [','] + (b + [','] + rest);
  }

  lemma NameSourceOfTwoSegments(a: string, b: string)
    requires ',' !in a && ',' !in b
    ensures NameSource(a + "," + b) == Strip(b)
  {
    SplitAfterSegment(a, ',', b);
    SplitNoSeparator(b, ',');
    assert a + "," + b == a + [','] + b;
  }

  /** With a comma in the prompt, only the second segment counts: whatever
      precedes the first comma and whatever follows the second is ignored. */
  lemma SanitizeUsesSecondSegment(a: string, b: string, rest: string)
    requires ',' !in a && ',' !in b
    ensures SanitizeFilename(a + "," + b + "," + rest) == SanitizeFilename(b)
    ensures SanitizeFilename(a + "," + b) == SanitizeFilename(b)
  {
    NameSourceOfThreeSegments(a, b, rest);
    NameSourceOfTwoSegments(a, b);
    SplitNoSeparator(b, ',');
    assert NameSource(b) == Strip(b);
  }

  /** A short name source is never cut: with at most 80 characters (after
      stripping), the whole sanitised text is the name. */
  lemma ShortNamesAreWhole(source: string)
    requires |source| <= 80
    ensures SanitizeSource(source) == ReplaceChar(RemoveDisallowed(source), ' ', '_')
  {
  }

  // ---------------------------------------------------------------------
  // upload_images / process_result

  /** A cropped section of the generated image. */
  datatype Crop = Crop(id: nat, width: int, height: int)

  /** The collaborators of asset finalisation: downloading and cropping the
      generated image (None on any failure), and uploading one image under a
      name in a given upload round (its public url, or None on failure).
      Every upload is a network call of its own, so the same image and name
      may fare differently in different rounds. */
  datatype AssetInputs = AssetInputs(
    fetch: string -> Option<seq<Crop>>,
    upload: (Crop, string, nat) -> Option<string>)

  /** The upload name of the `index`-th image (counting from 1). */
  function UploadName(base: string, index: nat): string
  {
    base + "_" + IntToString(index)
  }

  /** The names of `count` images numbered from `first`. */
  function UploadNames(base: string, first: nat, count: nat): (names: seq<string>)
    ensures |names| == count
    ensures forall k :: 0 <= k < count ==> names[k] == UploadName(base, first + k)
  {
    seq(count, k requires 0 <= k < count => UploadName(base, first + k))
  }

  /** Different numbers give different upload names. */
  lemma UploadNameInjective(base: string, m: nat, n: nat)
    ensures UploadName(base, m) == UploadName(base, n) ==> m == n
  {
    var head := base + "_";
    assert UploadName(base, m)[|head|..] == IntToString(m);
    assert UploadName(base, n)[|head|..] == IntToString(n);
    if UploadName(base, m) == UploadName(base, n) {
      IntToStringInjective(m, n);
    }
  }

  /** No two images of a round share a name, so no upload overwrites
      another. */
  lemma UploadNamesDistinct(base: string, first: nat, count: nat, i: nat, j: nat)
    requires i < count && j < count && i != j
    ensures UploadNames(base, first, count)[i] != UploadNames(base, first, count)[j]
  {
    UploadNameInjective(base, first + i, first + j);
  }

  /** The uploads of one round. */
  function InRound(upload: (Crop, string, nat) -> Option<string>, round: nat): (Crop, string) -> Option<string>
  {
    (c: Crop, n: string) => upload(c, n, round)
  }

  /** Uploads `crops[k]` under `names[k]`, all or nothing. */
  function UploadEach(crops: seq<Crop>, names: seq<string>, upload: (Crop, string) -> Option<string>)
    : (r: Option<seq<string>>)
    requires |names| == |crops|
    ensures r.Some? <==> forall k :: 0 <= k < |crops| ==> upload(crops[k], names[k]).Some?
    ensures r.Some? ==> |r.value| == |crops|
    ensures r.Some? ==> forall k :: 0 <= k < |crops| ==> Some(r.value[k]) == upload(crops[k], names[k])
    decreases |crops|
  {
    if |crops| == 0 then Some([])
    else
      match upload(crops[0], names[0])
      case None => None
      case Some(url) =>
        match UploadEach(crops[1..], names[1..], upload)
        case None =>
          var k :| 0 <= k < |crops| - 1 && upload(crops[1..][k], names[1..][k]).None?;
          assert crops[k + 1] == crops[1..][k] && names[k + 1] == names[1..][k];
          None
        case Some(rest) =>
          var r := [url] + rest;
          forall k | 1 <= k < |crops|
            ensures Some(r[k]) == upload(crops[k], names[k])
          {
            assert r[k] == rest[k - 1];
            assert crops[k] == crops[1..][k - 1] && names[k] == names[1..][k - 1];
          }
          Some(r)
  }

  /** The three upload rounds of `upload_images` over non-empty `crops`:
      round 0 uploads the first image, round 1 the rest, round 2 all of them
      again; only the last round's urls are kept, and any failed upload
      fails the call. */
  function UploadRounds(crops: seq<Crop>, names: seq<string>, upload: (Crop, string, nat) -> Option<string>)
    : Option<seq<string>>
    requires |names| == |crops| > 0
  {
    match UploadEach(crops[..1], names[..1], InRound(upload, 0))
    case None => None
    case Some(_) =>
      match UploadEach(crops[1..], names[1..], InRound(upload, 1))
      case None => None
      case Some(_) => UploadEach(crops, names, InRound(upload, 2))
  }

  /** `upload_images`: the images are named after the sanitised prompt and
      numbered from 1. An empty list fails on `images[0]`. */
  function UploadImages(crops: seq<Crop>, prompt: string, upload: (Crop, string, nat) -> Option<string>): Result<seq<string>>
  {
    if |crops| == 0 then Err(IndexError)
    else match UploadRounds(crops, UploadNames(SanitizeFilename(prompt), 1, |crops|), upload)
      case None => Err(NetworkError)
      case Some(urls) => Ok(urls)
  }

  /** Round 0 succeeds exactly when the first image uploads. */
  lemma FirstRoundCalls(crops: seq<Crop>, names: seq<string>, upload: (Crop, string, nat) -> Option<string>)
    requires |names| == |crops| > 0
    ensures UploadEach(crops[..1], names[..1], InRound(upload, 0)).Some? <==> upload(crops[0], names[0], 0).Some?
  {
    assert crops[..1][0] == crops[0] && names[..1][0] == names[0];
  }

  /** Round 1 succeeds exactly when every image but the first uploads. */
  lemma RestRoundCalls(crops: seq<Crop>, names: seq<string>, upload: (Crop, string, nat) -> Option<string>)
    requires |names| == |crops| > 0
    ensures UploadEach(crops[1..], names[1..], InRound(upload, 1)).Some? <==>
              forall k :: 1 <= k < |crops| ==> upload(crops[k], names[k], 1).Some?
  {
    if UploadEach(crops[1..], names[1..], InRound(upload, 1)).Some? {
      forall k | 1 <= k < |crops| ensures upload(crops[k], names[k], 1).Some? {
        assert crops[1..][k - 1] == crops[k] && names[1..][k - 1] == names[k];
      }
    } else {
      var k :| 0 <= k < |crops| - 1 && InRound(upload, 1)(crops[1..][k], names[1..][k]).None?;
      assert crops[1..][k] == crops[k + 1] && names[1..][k] == names[k + 1];
    }
  }

  /** The 2n calls of the three rounds: they all succeed exactly when the
      rounds do, and then the last round's urls are returned, in order. */
  lemma UploadRoundsCalls(crops: seq<Crop>, names: seq<string>, upload: (Crop, string, nat) -> Option<string>)
    requires |names| == |crops| > 0
    ensures UploadRounds(crops, names, upload).Some? <==>
              && upload(crops[0], names[0], 0).Some?
              && (forall k :: 1 <= k < |crops| ==> upload(crops[k], names[k], 1).Some?)
              && (forall k :: 0 <= k < |crops| ==> upload(crops[k], names[k], 2).Some?)
    ensures UploadRounds(crops, names, upload).Some? ==>
              && |UploadRounds(crops, names, upload).value| == |crops|
              && forall k :: 0 <= k < |crops| ==>
                   Some(UploadRounds(crops, names, upload).value[k]) == upload(crops[k], names[k], 2)
  {
    FirstRoundCalls(crops, names, upload);
    RestRoundCalls(crops, names, upload);
  }

  /** `upload_images` succeeds exactly when the list is non-empty and every
      one of its 2n upload calls succeeds; it then returns the urls of the
      last round, where image k (from 1) is named `<name>_<k>`. */
  lemma UploadImagesCalls(crops: seq<Crop>, prompt: string, upload: (Crop, string, nat) -> Option<string>)
    ensures |crops| == 0 ==> UploadImages(crops, prompt, upload) == Err(IndexError)
    ensures var names := UploadNames(SanitizeFilename(prompt), 1, |crops|);
            |crops| > 0 ==>
              (UploadImages(crops, prompt, upload).Ok? <==>
                 && upload(crops[0], names[0], 0).Some?
                 && (forall k :: 1 <= k < |crops| ==> upload(crops[k], names[k], 1).Some?)
                 && (forall k :: 0 <= k < |crops| ==> upload(crops[k], names[k], 2).Some?))
    ensures |crops| > 0 && UploadImages(crops, prompt, upload).Err? ==>
              UploadImages(crops, prompt, upload).error == NetworkError
    ensures var names := UploadNames(SanitizeFilename(prompt), 1, |crops|);
            UploadImages(crops, prompt, upload).Ok? ==>
              && |UploadImages(crops, prompt, upload).value| == |crops|
              && forall k :: 0 <= k < |crops| ==>
                   Some(UploadImages(crops, prompt, upload).value[k]) == upload(crops[k], names[k], 2)
  {
    if |crops| > 0 {
      UploadRoundsCalls(crops, UploadNames(SanitizeFilename(prompt), 1, |crops|), upload);
    }
  }

  /** If repeated uploads of an image under the same name answered alike,
      the three rounds would do exactly what the last round alone does. */
  lemma RoundsAreLastRound(crops: seq<Crop>, names: seq<string>, upload: (Crop, string, nat) -> Option<string>)
    requires |names| == |crops| > 0
    requires forall c, n :: upload(c, n, 0) == upload(c, n, 2) && upload(c, n, 1) == upload(c, n, 2)
    ensures UploadRounds(crops, names, upload) == UploadEach(crops, names, InRound(upload, 2))
  {
    UploadRoundsCalls(crops, names, upload);
    var last := UploadEach(crops, names, InRound(upload, 2));
    if last.Some? {
      assert forall k :: 0 <= k < |crops| ==> upload(crops[k], names[k], 2).Some?;
      var rounds := UploadRounds(crops, names, upload);
      assert rounds.Some?;
      assert rounds.value == last.value;
    } else {
      var k :| 0 <= k < |crops| && InRound(upload, 2)(crops[k], names[k]).None?;
      assert upload(crops[k], names[k], 2).None?;
    }
  }

  /** The results list: one entry per cropped image, in order, carrying the
      cropped image's own size. */
  function PairResults(urls: seq<string>, crops: seq<Crop>): (r: seq<ImagineResponse>)
    requires |urls| == |crops|
    ensures |r| == |crops|
    ensures forall i :: 0 <= i < |r| ==>
              r[i] == ImagineResponse(urls[i], crops[i].width, crops[i].height)
  {
    seq(|crops|, i requires 0 <= i < |crops| => ImagineResponse(urls[i], crops[i].width, crops[i].height))
  }

  /** Whether finalisation gets as far as assigning results. */
  predicate FinalizationSucceeds(job: Imagination, uri: Value, assets: AssetInputs)
  {
    && uri.VStr?
    && assets.fetch(uri.s).Some?
    && UploadImages(assets.fetch(uri.s).value, job.prompt, assets.upload).Ok?
  }

  /** `process_result`: on success `results` holds one entry per cropped
      image, in order, with that cropped image's width and height; on any
      failure (no uri, download, crop or upload error) the record is
      unchanged. Nothing but `results` ever changes. */
  function ProcessResult(job: Imagination, uri: Value, assets: AssetInputs): (r: Imagination)
    ensures r.(results := job.results) == job
    ensures !FinalizationSucceeds(job, uri, assets) ==> r == job
    ensures FinalizationSucceeds(job, uri, assets) ==>
              var crops := assets.fetch(uri.s).value;
              && r.results.Some?
              && |r.results.value| == |crops|
              && forall i :: 0 <= i < |crops| ==>
                   && r.results.value[i].width == crops[i].width
                   && r.results.value[i].height == crops[i].height
                   && Some(r.results.value[i].url) ==
                        assets.upload(crops[i], UploadName(SanitizeFilename(job.prompt), i + 1), 2)
  {
    if !uri.VStr? then job
    else match assets.fetch(uri.s)
      case None => job
      case Some(crops) =>
        UploadImagesCalls(crops, job.prompt, assets.upload);
        match UploadImages(crops, job.prompt, assets.upload)
        case Err(_) => job
        case Ok(urls) => job.(results := Some(PairResults(urls, crops)))
  }

  // ---------------------------------------------------------------------
  // process_imagine_webhook

  /** `(data.result or {}).get("uri")`. */
  function ResultUri(data: ImagineWebhookData): Value
  {
    if data.result.Some? then Get(data.result.value, "uri") else VNone
  }

  /** `process_imagine_webhook`: an error update only calls `retry` (with
      the default limit); any other update finalises assets when completed,
      then copies the percentage, the mapped status and its task status onto
      the record, whatever the record's current status. */
  function ProcessImagineWebhook(job: Imagination, data: ImagineWebhookData, assets: AssetInputs): (r: Result<Step>)
    ensures r.Ok? ==> SpawnImagineUpdate !in r.value.actions
    ensures data.status == error ==>
              match Retry(job, data.error, DefaultMaxRetries)
              case Err(e) => r == Err(e)
              case Ok(rs) => r == Ok(rs.step)
    ensures data.status != error ==>
              && r.Ok?
              && r.value.job.status == FromMidjourney(StatusValue(data.status))
              && r.value.job.taskStatus == TaskStatusOf(r.value.job.status)
              && r.value.job.taskProgress == data.percentage
              && r.value.job.metaData == job.metaData
              && r.value.job.(status := job.status, taskStatus := job.taskStatus,
                              taskProgress := job.taskProgress, results := job.results) == job
              && (data.status != completed ==> r.value.job.results == job.results)
              && (data.status == completed ==>
                    r.value.job.results == ProcessResult(job, ResultUri(data), assets).results)
              && |r.value.actions| == 1 && r.value.actions[0].SaveReport?
  {
    if data.status == error then
      match Retry(job, data.error, DefaultMaxRetries)
      case Err(e) => Err(e)
      case Ok(rs) => Ok(rs.step)
    else
      var job1 := if data.status == completed then ProcessResult(job, ResultUri(data), assets) else job;
      var status := FromMidjourney(StatusValue(data.status));
      var job2 := job1.(taskProgress := data.percentage, status := status, taskStatus := TaskStatusOf(status));
      var report := if data.status == completed then CompletedReport else UpdateReport(status);
      Ok(Step(job2, [SaveReport(report, false)]))
  }

  /** An error update touches neither the status (below the limit) nor the
      progress: it only counts a retry. */
  lemma ErrorUpdateOnlyRetries(job: Imagination, data: ImagineWebhookData, assets: AssetInputs)
    requires data.status == error
    requires JobRetryCount(job).Ok? && JobRetryCount(job).value < DefaultMaxRetries
    ensures ProcessImagineWebhook(job, data, assets).Ok?
    ensures var j := ProcessImagineWebhook(job, data, assets).value.job;
            && j.status == job.status
            && j.taskProgress == job.taskProgress
            && j.results == job.results
            && JobRetryCount(j) == Ok(JobRetryCount(job).value + 1)
  {
  }

  /** There is no terminal-state guard in the update itself: a completed
      record receiving a "queue" update goes back to queue. */
  lemma NoTerminalGuard(job: Imagination, assets: AssetInputs)
    requires job.status == completed
    ensures var data := ImagineWebhookData(job.prompt, queue, 10, None, None);
            && ProcessImagineWebhook(job, data, assets).Ok?
            && ProcessImagineWebhook(job, data, assets).value.job.status == queue
  {
    FromMidjourneyOnMembers(queue);
  }

  // ---------------------------------------------------------------------
  // imagine_request / imagine_update

  /** `imagine_request`, with the provider's reply to the submission as an
      input (None: the call raised). Errors are swallowed by the wrapper, so
      the outcome is always a step. */
  function ImagineRequest(job: Imagination, rootUrl: string, reply: Option<Dict>): (r: Step)
    ensures job.mode != "imagine" ==> r == Step(job, [])
    ensures job.mode == "imagine" && job.engine != midjourney ==> r == Step(job, [])
    ensures job.mode == "imagine" && job.engine == midjourney ==>
              && 1 <= |r.actions|
              && r.actions[0] == CallImagine(job.prompt, WebhookUrl(rootUrl, job.uid))
              && (reply.None? ==> r == Step(job, r.actions[..1]))
              && (reply.Some? ==>
                    && r.job.(metaData := job.metaData) == job
                    && r.job.metaData.Some?
                    && r.job.metaData.value.Keys == MetaOrEmpty(job).Keys + reply.value.Keys
                    && (forall k :: k in reply.value ==> r.job.metaData.value[k] == reply.value[k])
                    && (forall k :: k in MetaOrEmpty(job) && k !in reply.value ==>
                          r.job.metaData.value[k] == MetaOrEmpty(job)[k])
                    && r.actions[1..] == [SaveReport(RequestedReport, false), SpawnImagineUpdate])
  {
    if job.mode != "imagine" then Step(job, [])
    else if job.engine != midjourney then Step(job, [])
    else
      var call := CallImagine(job.prompt, WebhookUrl(rootUrl, job.uid));
      match reply
      case None => Step(job, [call])
      case Some(d) =>
        Step(job.(metaData := Some(MetaOrEmpty(job) + d)),
             [call, SaveReport(RequestedReport, false), SpawnImagineUpdate])
  }

  /** What a status poll brings back from the provider. */
  datatype PollReply = PollReply(
    prompt: string,
    status: string,
    percentage: PercentInput,
    result: Option<Dict>,
    uri: Value,
    error: Option<string>)

  /** The poll reply as webhook data: `result` gets the reply's uri under
      "uri", then the payload is validated. */
  function PollAsWebhookData(reply: PollReply): Result<ImagineWebhookData>
  {
    var result := (if reply.result.Some? then reply.result.value else map[])["uri" := reply.uri];
    ParseWebhookData(reply.prompt, reply.status, reply.percentage, Some(result), reply.error)
  }

  /** The provider's task id as the poll reads it. */
  function TaskId(job: Imagination): Value
  {
    Get(MetaOrEmpty(job), "uuid")
  }

  /** Whether a poll reply is handled: it validates as webhook data and the
      update goes through. */
  predicate PollHandled(job: Imagination, reply: Option<PollReply>, assets: AssetInputs)
  {
    && reply.Some?
    && PollAsWebhookData(reply.value).Ok?
    && ProcessImagineWebhook(job, PollAsWebhookData(reply.value).value, assets).Ok?
  }

  /** The part of a poll after the provider was asked. */
  function HandlePoll(job: Imagination, call: Action, reply: Option<PollReply>, assets: AssetInputs): (r: Step)
    ensures PollHandled(job, reply, assets) ==>
              var step := ProcessImagineWebhook(job, PollAsWebhookData(reply.value).value, assets).value;
              r == Step(step.job, [call] + step.actions + [SpawnImagineUpdate])
    ensures !PollHandled(job, reply, assets) ==> r == Step(job, [call])
  {
    match reply
    case None => Step(job, [call])
    case Some(rep) =>
      match PollAsWebhookData(rep)
      case Err(_) => Step(job, [call])
      case Ok(data) =>
        match ProcessImagineWebhook(job, data, assets)
        case Err(_) => Step(job, [call])
        case Ok(step) => Step(step.job, [call] + step.actions + [SpawnImagineUpdate])
  }

  /** `imagine_update`, one poll (the delay before it is left out). A
      finished record is left alone and nothing is rescheduled; another
      engine or a missing task id stop the chain; otherwise the provider is
      asked for the task's state, its reply is handled as a webhook update
      and the next poll is scheduled. A failure anywhere after the call
      (no reply, invalid payload, a raising retry) stops the chain. */
  function ImagineUpdate(job: Imagination, reply: Option<PollReply>, assets: AssetInputs): (r: Step)
    ensures IsDone(job.status) ==> r == Step(job, [])
    ensures !IsDone(job.status) && (job.engine != midjourney || TaskId(job) == VNone) ==> r == Step(job, [])
    ensures !IsDone(job.status) && job.engine == midjourney && TaskId(job) != VNone ==>
              && 1 <= |r.actions|
              && r.actions[0] == CallGetResult(TaskId(job))
              && (PollHandled(job, reply, assets) ==>
                    var step := ProcessImagineWebhook(job, PollAsWebhookData(reply.value).value, assets).value;
                    r.job == step.job && r.actions[|r.actions| - 1] == SpawnImagineUpdate)
              && (!PollHandled(job, reply, assets) ==> r == Step(job, [CallGetResult(TaskId(job))]))
  {
    if IsDone(job.status) then Step(job, [])
    else if job.engine != midjourney then Step(job, [])
    else if TaskId(job) == VNone then Step(job, [])
    else HandlePoll(job, CallGetResult(TaskId(job)), reply, assets)
  }

  /** The poll chain goes on exactly when the record was not finished, had a
      task id, and the reply was handled. */
  lemma PollReschedulesIff(job: Imagination, reply: Option<PollReply>, assets: AssetInputs)
    ensures SpawnImagineUpdate in ImagineUpdate(job, reply, assets).actions <==>
              && !IsDone(job.status)
              && job.engine == midjourney
              && TaskId(job) != VNone
              && PollHandled(job, reply, assets)
  {
    if !IsDone(job.status) && job.engine == midjourney && TaskId(job) != VNone && PollHandled(job, reply, assets) {
      var step := ProcessImagineWebhook(job, PollAsWebhookData(reply.value).value, assets).value;
      var actions := [CallGetResult(TaskId(job))] + step.actions + [SpawnImagineUpdate];
      assert actions[|actions| - 1] == SpawnImagineUpdate;
    }
  }
}
