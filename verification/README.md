# ufiles-stocks, modelled in Dafny

This project models the decision and transformation rules of the ufiles-stocks
service. It covers three parts.

- **The image-generation job lifecycle.** This is the imagination app. It
  covers the status vocabulary and its maps, the webhook payload normaliser,
  the single update step shared by the webhook and the poll, the submit and
  poll guards, and the bounded retry counter with its failure path. It also
  covers the route's cancelled short-circuit, the upload file name derived
  from the prompt, and the naming and pairing of uploaded results.
- **The stock-image manager's guards.** Search clamps page and limit, and
  download checks the provider whitelist and builds the payload.
- **The business and tenant rules.**
  - Defaulting the domain and normalising the root url.
  - The `AppAuth` signature scheme, in both its integer-timestamp and
    float-timestamp versions, with its freshness window.
  - The access-token request both versions sign.
  - The owner-versus-user decision in the authorization middleware.
  - The data-transfer builders that bind request bodies to a business.

The model is functional throughout:

- Records are immutable datatypes, and each handler is a function from the
  record and its inputs to the record afterwards.
- Each asynchronous follow-up is returned as an `Action` value: persisting a
  report, spawning `start_processing`, scheduling the next poll, calling the
  generation service.
- A Python exception is an `Err` of `Results.Result`. `try_except_wrapper`
  swallows exceptions, so a wrapped handler that fails leaves the record
  unchanged and requests nothing.
- Network replies, the clock, the cropped images, the upload service and the
  JWT check are parameters.
- SHA-256 and `str(float)` are function-valued parameters. Every property
  about signatures therefore holds for any hash function.
- Hex digests and UTF-8 encoding and decoding are modelled exactly, and
  decoding provably undoes encoding.

Modules: `Results`, `PyText`, `PyValue` and `Utf8` give the Python semantics
the source relies on (exceptions, `str` operations, truthiness, `or`,
`dict.get`, UTF-8). `Tasks`, `ImaginationSchemas`, `ImaginationModels`,
`ImaginationServices` and `ImaginationRoutes` follow
`app/apps/imagination/`. `StocksManager` follows
`app/apps/stocks/manager.py`. `AppAuthScheme` holds the signature scheme of
both `AppAuth` classes and the `get_access_token` of `app/utils/app_auth.py`.
`BusinessSchemas`, `BusinessModels`, `BusinessMiddlewares` and
`BusinessHandlers` follow `app/apps/business/`.

### Behaviour of the code worth noting (the model follows the code)

- `process_imagine_webhook` has no terminal-state guard. Only the webhook
  route refuses a `cancelled` record, and only the poll stops on `is_done`. A
  `completed` record that receives a "queue" webhook goes back to `queue`
  (`ImaginationServices.NoTerminalGuard`, `ImaginationRoutes.CompletedIsNotFinal`).
- A failed submission is not retried. `imagine_request` is wrapped in
  `try_except_wrapper`, so an unsupported engine or a failed call leaves the
  record unchanged. Submission also does not move the record out of `draft`
  (`ImaginationRoutes.UnsupportedEngineStaysDraft`).
- A percentage given as a string is not clamped: "150%" becomes 150
  (`ImaginationSchemas.PercentTextNotClamped`).
- `done` is a status in its own right, and `is_done` includes it.
- A result's width and height are those of the cropped image, not of the
  downloaded original, because the loop variable shadows it.
- The upload name comes from the second comma-separated segment of the prompt.
- `upload_images` uploads the first image, then the others, then every image
  again, and returns only the last round. The call fails when any of those
  uploads fails (`ImaginationServices.UploadImagesCalls`).
- For the owner of a business, the `user_id` chain `query or path or body`
  yields its last operand when all three are falsy. That is the body's value,
  which may be `""`, rather than always `None`
  (`BusinessMiddlewares.OwnerWithoutUserId`).

## Model

| member | source | states |
|---|---|---|
| ImaginationSchemas.StatusFromValue | app/apps/imagination/schemas.py:9-20 | a string validates only to the member whose value it is |
| ImaginationSchemas.StatusValueRoundTrip | app/apps/imagination/schemas.py:9-20 | reading back a member's value gives the member |
| ImaginationSchemas.FromMidjourney | app/apps/imagination/schemas.py:22-31 | the six table entries map as listed, and the result is `error` exactly for strings outside the five non-error keys; the result is always one of init, queue, waiting, processing, completed, error |
| ImaginationSchemas.FromMidjourneyRange | app/apps/imagination/schemas.py:24-31 | the map never yields none, draft, running, done or cancelled; "init" and "processing" map to error |
| ImaginationSchemas.FromMidjourneyOnMembers | app/apps/imagination/schemas.py:22-31 | applied to the webhook's typed statuses: queue, waiting, completed and error are kept, running becomes processing, all others become error |
| ImaginationSchemas.TaskStatusOf | app/apps/imagination/schemas.py:33-47 | total map: the four in-flight statuses give processing, done, completed and cancelled give completed, and error gives error, each as an if-and-only-if |
| ImaginationSchemas.IsDoneIffFinalTask | app/apps/imagination/schemas.py:49-56 | `is_done` holds exactly for done, completed, error, cancelled, which are exactly the statuses whose task status is completed or error |
| ImaginationSchemas.EngineSchemaFromModel | app/apps/imagination/schemas.py:74-90 | the listing entry keeps the engine, its thumbnail is the cdn prefix followed by the engine's value and ".png", and its price is 0.1 |
| ImaginationSchemas.ValidatePercentage | app/apps/imagination/schemas.py:121-131 | None gives -1; an int or a float is clamped into [-1, 100] and an int already inside is kept; a float inside the range is accepted exactly when it is whole, as that integer, and a fractional one is rejected by the int field; a string has every "%" removed and is parsed as an int without clamping, and it fails exactly when that parse fails |
| ImaginationSchemas.PercentTextNotClamped | app/apps/imagination/schemas.py:125-126 | any integer written out with a trailing "%" comes back unchanged, however large |
| ImaginationSchemas.PercentageExamples | app/apps/imagination/schemas.py:121-131 | None gives -1, 150 gives 100, -5 gives -1, 45 gives 45 |
| ImaginationSchemas.PercentTextExample | app/apps/imagination/schemas.py:125-126 | "45%" gives 45 |
| ImaginationSchemas.PercentTextRejected | app/apps/imagination/schemas.py:125-126 | "abc" is a validation error |
| ImaginationSchemas.FloatPercentageExamples | app/apps/imagination/schemas.py:121-131 | 150.5 gives 100, -3.2 gives -1, 45.0 gives 45, and 45.5 is rejected |
| ImaginationSchemas.ParseWebhookData | app/apps/imagination/schemas.py:114-131 | the payload validates exactly when its status is a member value and its percentage validates; the fields are carried over and the percentage normalised |
| ImaginationModels.WebhookUrl | app/apps/imagination/models.py:11-18 | the webhook url is the item url followed by "/webhook" |
| ImaginationModels.WebhookUrlNamesJob | app/apps/imagination/models.py:11-18 | the job id can be read back from its webhook url |
| ImaginationModels.WebhookUrlInjective | app/apps/imagination/models.py:11-18 | two jobs never share a webhook url |
| ImaginationModels.JobRetryCount | app/apps/imagination/models.py:26-27 | missing meta data or a missing counter counts as 0 |
| ImaginationModels.Fail | app/apps/imagination/models.py:42-46 | status and task status become error and nothing else changes; the failure message is reported quietly, then saved and emitted |
| ImaginationModels.Retry | app/apps/imagination/models.py:25-46 | below the limit: the counter goes up by one, the new count is returned, other meta keys, the status and all other fields are kept, and a resubmission is spawned; at or over the limit: -1 is returned, status and task status become error, the meta data (an empty dict when there was none) keeps its counter, every other field is kept, and the only actions are the quiet failure report followed by save-and-emit; a counter that cannot be compared raises |
| ImaginationModels.RetryKeepsBound | app/apps/imagination/models.py:29-30 | a counter within the limit stays within it after a retry |
| ImaginationModels.RetriesCountUp | app/apps/imagination/models.py:25-37 | k retries within the limit return c+1 … c+k, leave the counter at c+k and keep the status |
| ImaginationModels.SixRetries | app/apps/imagination/models.py:25-46 | from no counter, six retries return 1, 2, 3, 4, 5, -1 and end failed with counter 5 |
| ImaginationModels.RetryTimesSplit | app/apps/imagination/models.py:25-40 | n+1 retries in a row are n retries followed by one more |
| ImaginationServices.RemoveDisallowed | app/apps/imagination/services.py:33 | the regex substitution leaves only letters, digits, "_", "." and space, leaves an already clean text alone and drops a single disallowed character |
| ImaginationServices.RemoveDisallowedAppend | app/apps/imagination/services.py:33 | the substitution works character by character: on a concatenation it is the concatenation of the two results, so the kept characters stay in order |
| ImaginationServices.CutPosition | app/apps/imagination/services.py:30-32 | the cut lies in [80, 120]; when some index in [80, 120] of the source holds a space, the cut is the first such index; when none does, the cut is 100 |
| ImaginationServices.SanitizeSource | app/apps/imagination/services.py:30-35 | the name holds only letters, digits, "_" and "."; it is the prefix of the fully sanitised source whose length is the cut position, or all of it when that is shorter |
| ImaginationServices.SanitizeFilename | app/apps/imagination/services.py:24-35 | the same facts about the name made from the prompt's name source |
| ImaginationServices.NameSourceOfThreeSegments | app/apps/imagination/services.py:27-29 | with two or more commas the name source is the second segment, stripped |
| ImaginationServices.NameSourceOfTwoSegments | app/apps/imagination/services.py:27-29 | with one comma the name source is the part after it, stripped |
| ImaginationServices.SanitizeUsesSecondSegment | app/apps/imagination/services.py:27-29 | the first segment and everything after the second comma never affect the file name |
| ImaginationServices.ShortNamesAreWhole | app/apps/imagination/services.py:30-35 | a name source of at most 80 characters is never cut |
| ImaginationServices.UploadNameInjective | app/apps/imagination/services.py:79-105 | two upload names built from one base are equal only for equal numbers |
| ImaginationServices.UploadNamesDistinct | app/apps/imagination/services.py:79-105 | no two images of a round get the same name |
| ImaginationServices.UploadEach | app/apps/imagination/services.py:101-113 | a gathered round succeeds exactly when every upload does, and returns each image's url in order |
| ImaginationServices.UploadRoundsCalls | app/apps/imagination/services.py:75-113 | the three rounds succeed exactly when the first image uploads in round one, every other image in round two and every image in round three; the result is round three's urls, in order |
| ImaginationServices.RoundsAreLastRound | app/apps/imagination/services.py:75-113 | when a repeated upload of the same image under the same name answers as the last one does, the three rounds give what the last round gives |
| ImaginationServices.UploadImagesCalls | app/apps/imagination/services.py:62-114 | an empty list fails on `images[0]`; otherwise the call succeeds exactly when all uploads of the three rounds succeed, under the names `<name>_<i>`, a failure is a network error, and the urls are those of the last round, in order |
| ImaginationServices.ProcessResult | app/apps/imagination/services.py:117-145 | only `results` ever changes; on success it holds one entry per cropped image with the crop's size and the url of its last-round upload; on any failure the record is unchanged |
| ImaginationServices.ProcessImagineWebhook | app/apps/imagination/services.py:148-167 | an error update is exactly `retry` with the payload's error; any other update sets status from the map, task status from the status and progress from the percentage, finalises assets when completed, keeps every other field, and requests one report; no poll is scheduled |
| ImaginationServices.ErrorUpdateOnlyRetries | app/apps/imagination/services.py:149-151 | an error update within the limit keeps status, progress and results and only counts a retry |
| ImaginationServices.NoTerminalGuard | app/apps/imagination/services.py:157-159 | a completed record is moved back to queue by a "queue" update |
| ImaginationServices.ImagineRequest | app/apps/imagination/services.py:179-194 | a non-"imagine" mode or a non-midjourney engine changes nothing and requests nothing; otherwise the prompt is submitted with the job's webhook url, the reply is merged over the old meta data (old keys kept unless overwritten), and a report and the first poll are requested |
| ImaginationServices.HandlePoll | app/apps/imagination/services.py:210-217 | a poll reply that validates and whose update succeeds is applied like a webhook and followed by the next poll; otherwise nothing changes after the call |
| ImaginationServices.ImagineUpdate | app/apps/imagination/services.py:197-217 | a done record, a non-midjourney engine or a missing task id leave the record unchanged and schedule nothing; otherwise the result is fetched by task id and applied like a webhook, then the next poll is scheduled |
| ImaginationServices.PollReschedulesIff | app/apps/imagination/services.py:197-217 | the next poll is scheduled exactly when the record was not done, the engine is midjourney, the task id is present and the reply was handled |
| ImaginationRoutes.CreateItem | app/apps/imagination/routes.py:72-80 | the record is persisted as a draft with the body's prompt and engine and no results, then `start_processing` is scheduled once, and the record is returned |
| ImaginationRoutes.CreateDefaults | app/apps/imagination/schemas.py:105-111 | a new record is a draft midjourney job in mode "imagine" with no results |
| ImaginationRoutes.CreatedJobSubmits | app/apps/imagination/services.py:181-189 | a new midjourney job's first processing submits its prompt with its own webhook url |
| ImaginationRoutes.UnsupportedEngineStaysDraft | app/apps/imagination/services.py:179-185 | a new job for any other engine stays a draft and nothing is scheduled |
| ImaginationRoutes.Webhook | app/apps/imagination/routes.py:82-90 | a cancelled record gets the cancellation message and no update; any other record gets the update and the answer `{}`, and an exception in the update propagates |
| ImaginationRoutes.CancelledIsFinal | app/apps/imagination/routes.py:87-88 | no sequence of deliveries changes a cancelled record |
| ImaginationRoutes.CompletedIsNotFinal | app/apps/imagination/routes.py:87-90 | a completed record is not protected by the route |
| ImaginationRoutes.RetryBoundAcrossDeliveries | app/apps/imagination/routes.py:82-90 | no sequence of deliveries pushes the retry counter past the default limit |
| ImaginationRoutes.ErrorDeliveriesCount | app/apps/imagination/services.py:149-151 | k error deliveries within the limit count k retries and keep the status |
| ImaginationRoutes.SixthErrorFails | app/apps/imagination/models.py:25-46 | from a fresh record, the sixth error delivery fails the job with the counter at 5 |
| ImaginationRoutes.DeliverAllSplit | app/apps/imagination/routes.py:82-90 | delivering a then b is delivering a followed by b |
| ImaginationRoutes.PollChainStopsAfterTerminal | app/apps/imagination/services.py:199-202 | once a poll leaves the record done, the next poll changes nothing and schedules nothing |
| ImaginationRoutes.Engines | app/apps/imagination/routes.py:96-101 | one entry per engine in declaration order, each with its thumbnail url and price 0.1 |
| ImaginationRoutes.EnginesListEachOnce | app/apps/imagination/routes.py:96-101 | every engine appears in the listing, and no engine appears twice |
| StocksManager.ClampPage | app/apps/stocks/manager.py:33 | the page is at least 1 and is kept when it already is |
| StocksManager.ClampLimit | app/apps/stocks/manager.py:34 | the limit lies in [1, 20] and is kept when already inside; it becomes 1 below and 20 above |
| StocksManager.ClampIdempotent | app/apps/stocks/manager.py:33-34 | clamping twice is clamping once |
| StocksManager.Search | app/apps/stocks/manager.py:32-47 | the base manager raises before any request; a reply without "data" raises; otherwise the search uses the clamped page and limit and returns one image per row, in order |
| StocksManager.ConvertRows | app/apps/stocks/manager.py:44-45 | the gathered conversion succeeds exactly when each row converts, and keeps order and count |
| StocksManager.Download | app/apps/stocks/manager.py:49-83 | it raises exactly when the provider is missing or outside the 13 names; otherwise the payload carries the code as a decimal string that parses back to the code, and the provider name |
| StocksManager.BaseManagerRaises | app/apps/stocks/manager.py:20-65 | the base manager can neither search nor download |
| AppAuthScheme.CheckTimestamp | app/apps/business/schemas.py:77-81 | a timestamp is rejected exactly when it is more than 60 seconds before now, with "Timestamp expired."; otherwise it passes unchanged |
| AppAuthScheme.TimestampFreshForAMinute | app/utils/app_auth.py:19-23 | a timestamp taken at most 60 seconds ago passes |
| AppAuthScheme.HexChar | app/apps/business/schemas.py:85 | each digit is a lower-case hex character |
| AppAuthScheme.HexDigest | app/apps/business/schemas.py:85 | the digest has two lower-case hex characters per byte and is ASCII |
| AppAuthScheme.HexRoundTrip | app/apps/business/schemas.py:85 | the bytes can be read back from their hex digest |
| AppAuthScheme.Sha256Hex | app/apps/business/schemas.py:85 | a hex SHA-256 of any text is ASCII |
| AppAuthScheme.SecretText | app/apps/business/schemas.py:89-90 | text is used as it is; bytes are decoded as UTF-8 and fail exactly when they are not valid UTF-8 |
| AppAuthScheme.GetSecret | app/apps/business/schemas.py:97-102 | the secret exists exactly when the app secret decodes, and it is ASCII |
| AppAuthScheme.CompareDigest | app/apps/business/schemas.py:93-95 | two ASCII strings compare by equality; anything else raises |
| AppAuthScheme.CheckSecret | app/apps/business/schemas.py:88-95 | `check_secret` raises exactly when the app secret does not decode or the stored secret is missing or not ASCII |
| AppAuthScheme.KeyPartIgnoresSecret | app/apps/business/schemas.py:83-86 | the key part does not depend on the stored secret |
| AppAuthScheme.ScopeBoundariesIgnored | app/apps/business/schemas.py:83-86 | scope lists with the same concatenation give the same key part and secret |
| AppAuthScheme.ScopeBoundaryExample | app/utils/app_auth.py:25-28 | ["ab"] and ["a", "b"] sign alike |
| AppAuthScheme.SignedPayloadChecks | app/apps/business/schemas.py:88-102 | after setting the secret to `get_secret(k)`, `check_secret(k)` is true |
| AppAuthScheme.CheckSecretIffGetSecret | app/apps/business/schemas.py:88-102 | for a present ASCII stored secret, `check_secret(k)` is true exactly when it equals `get_secret(k)` |
| AppAuthScheme.BytesActLikeText | app/utils/app_auth.py:30-44 | a secret passed as its UTF-8 bytes gives the same `get_secret` and `check_secret` as the text |
| AppAuthScheme.NewFloatAppAuth | app/utils/app_auth.py:11-23 | the float-timestamp payload is built exactly when its timestamp is fresh |
| AppAuthScheme.GetAccessToken | app/utils/app_auth.py:47-64 | the payload is stamped with now, carries the given scopes and sso url, passes `check_secret` of the app secret and is posted to the fixed sso url; only an undecodable secret fails |
| AppAuthScheme.TruncToInt | app/apps/business/schemas.py:73 | `int()` of a float truncates toward zero |
| Utf8.DecodeEncodeChar | app/apps/business/schemas.py:89-90 | one character's UTF-8 bytes decode back to it, whatever follows |
| Utf8.DecodeEncode | app/apps/business/schemas.py:89-90 | decoding the UTF-8 encoding of a text gives the text |
| Utf8.EncodeInjective | app/apps/business/schemas.py:101-102 | different texts have different encodings |
| BusinessSchemas.ValidateDomain | app/apps/business/schemas.py:51-57 | a missing or empty domain becomes "<name>.<root url>", a given one is kept, nothing else changes, and the result always has a non-empty domain |
| BusinessSchemas.ValidateDomainIdempotent | app/apps/business/schemas.py:51-57 | validating twice is validating once |
| BusinessSchemas.NamedBusinessDomain | app/apps/business/schemas.py:53-55 | a body with only a name, or with an empty domain, gets "<name>.<root url>" |
| BusinessSchemas.NewAppAuth | app/apps/business/schemas.py:69-81 | without a timestamp the payload is stamped `int(now)` unvalidated; a supplied timestamp is accepted exactly when fresh |
| BusinessSchemas.DefaultTimestampFresh | app/apps/business/schemas.py:73-81 | the default timestamp is fresh at the moment it was taken |
| BusinessModels.RootUrl | app/apps/business/models.py:24-28 | the root url always starts with "http": the domain itself if it does, otherwise "https://" and the domain |
| BusinessModels.RootUrlIdempotent | app/apps/business/models.py:24-28 | applying the rule to its own output changes nothing |
| BusinessModels.ValidateBusinessDomain | app/apps/business/models.py:38-44 | the record's validator fills a missing or empty domain with "<name>.<root url>" and keeps a given one |
| BusinessModels.SchemaThenModelValidation | app/apps/business/models.py:38-44 | data that passed the creation schema is not changed again by the record's validator |
| BusinessModels.GetAccessToken | app/apps/business/models.py:51-66 | the payload has no scopes, the business's sso url and a fresh timestamp, passes `check_secret` of the app secret, and is posted to the core sso url; the reply's access token is returned |
| BusinessMiddlewares.RequestJson | app/apps/business/middlewares.py:56 | empty or malformed bytes raise a JSON error; a JSON object is returned as it is |
| BusinessMiddlewares.FindByOrigin | app/apps/business/models.py:30-32 | the first business whose domain is the origin, or none exactly when no domain matches |
| BusinessMiddlewares.GetBusiness | app/apps/business/middlewares.py:26-32 | a stored business with the request's hostname as its domain, or a 404 "business_not_found" exactly when there is none |
| BusinessMiddlewares.GetRequestBodyDict | app/apps/business/middlewares.py:52-56 | an empty body reads as `{}`; otherwise the body is parsed |
| BusinessMiddlewares.BodyUserId | app/apps/business/middlewares.py:71-72 | the body's "user_id" (None when absent); a malformed or non-object body raises |
| BusinessMiddlewares.OwnerUserId | app/apps/business/middlewares.py:69-73 | the query's user id when truthy, else the path's when truthy, else the body's, which is read only then |
| BusinessMiddlewares.AuthorizationMiddleware | app/apps/business/middlewares.py:59-81 | the business is looked up before authentication; the role is Business exactly when the caller owns the business; a non-owner acts for their own uid, an owner for the resolved user id; every request is authorized; it fails only on a missing business, a failed authentication or an unreadable body the owner path needed |
| BusinessMiddlewares.AuthorizedRequest | app/apps/business/middlewares.py:35-36 | every request is authorized |
| BusinessMiddlewares.BusinessOrUser | app/apps/business/middlewares.py:39-49 | the role is Business exactly when the business's owner is the authenticated user |
| BusinessMiddlewares.NonOwnerActsForThemselves | app/apps/business/middlewares.py:74-76 | for a non-owner the outcome does not depend on the query, path or body, and the user id is their own |
| BusinessMiddlewares.RolesAgree | app/apps/business/middlewares.py:47-49 | the middleware and `business_or_user` agree on the role |
| BusinessMiddlewares.QueryUserIdSkipsBody | app/apps/business/middlewares.py:69-73 | an owner naming a user in the query acts for that user, whatever the body holds |
| BusinessMiddlewares.OwnerWithoutUserId | app/apps/business/middlewares.py:69-73 | an owner naming no user acts for the last operand of the chain, here "" |
| BusinessHandlers.FormData | app/apps/business/handlers.py:18 | the body must be a JSON object |
| BusinessHandlers.CreateDto | app/apps/business/handlers.py:14-30 | keyword arguments override the body; the result is always bound to the request's business; a non-owner's user id is their own; an owner keeps a supplied user id, else gets their own; a supplied user id with no caller fails |
| BusinessHandlers.NonOwnerCreatesForThemselves | app/apps/business/handlers.py:20-26 | a non-owner's dto is built, for their own uid and for the request's business |
| BusinessHandlers.KwargsOverrideBody | app/apps/business/handlers.py:18-19 | a keyword argument's value is the one kept |
| BusinessHandlers.FindItem | app/apps/business/handlers.py:42 | an item with the uid in the business (and the caller's, when there is one), or none exactly when no item matches |
| BusinessHandlers.UpdateDto | app/apps/business/handlers.py:33-55 | a missing business, path uid, parseable body or item raises the matching error; otherwise the result is the found item's fields overlaid by the body, body values winning |
| BusinessHandlers.UpdateIgnoresKwargs | app/apps/business/handlers.py:39-42 | the route's keyword arguments have no effect |
| BusinessHandlers.UpdateStaysWithOwner | app/apps/business/handlers.py:40-49 | a caller whose uid owns no stored item gets "item not found" |
| PyText.ParseInt | app/apps/imagination/schemas.py:126 | `int()` of a digit string, optionally signed with "-" or "+", is its value with that sign; any other text fails |
| PyText.ParseIntToString | app/apps/stocks/manager.py:74 | the decimal rendering of an integer parses back to it |
| PyText.Split | app/apps/imagination/services.py:27 | the parts contain no separator, join back to the text, and there is more than one exactly when the separator occurs |
| PyText.Strip | app/apps/imagination/services.py:29 | the stripped text is no longer than the text and has no whitespace at either end |
| PyText.Find | app/apps/imagination/services.py:30 | the first index at or after the start holding the character, or -1 when there is none |
| PyText.ReplaceChar | app/apps/imagination/services.py:34 | each occurrence of the character is replaced, every other character stays where it was, and none of the replaced character is left |
| PyText.ReplaceCharRoundTrip | app/apps/imagination/services.py:34 | replacing back undoes the replacement when the new character did not occur before |
| PyText.RemoveChar | app/apps/imagination/schemas.py:126 | no "%" is left, every other character is kept as often as it occurred, and a text without "%" comes back unchanged |
| PyText.RemoveCharAppend | app/apps/imagination/schemas.py:126 | removal distributes over concatenation, so the kept characters stay in order |
| PyValue.Or | app/apps/business/middlewares.py:69-73 | `a or b` is `a` when truthy, else `b`, and it is truthy exactly when one of the two is |

## Left out

- Network I/O is an input. This covers the generation service's submit and
  result calls, the core's token endpoint, the stock providers' search
  replies, the download POST's reply and the UFiles upload (a function from
  image and name to a url or failure).
- Image processing (PIL decoding, the 2×2 crop, webp conversion) is an input:
  the crops are an opaque list with width and height. Any failure in it counts
  as "no crops".
- Asynchronous scheduling is represented by returned actions. This covers
  `asyncio.create_task`, the fixed delay before each poll, and the race
  between a poll and a webhook. Each handler is one atomic step, so
  interleavings of concurrent steps are not modelled.
- Persistence and the web framework are left out: `save_report`,
  `save_and_emit`, the database, and the framework's `get_item` lookup by uid.
  The webhook route starts from the record that lookup returned. The
  update-builder's store is a list of item dictionaries.
- `request_imagine_metis` and `ImaginationEngines.metis_bot_id` are not
  modelled: they are only a foreign bot call and its id table.
- The stock provider subclasses, `get_job` and the stock routes are not
  modelled. Their `get_search_params` and `get_row` are inputs.
- `authorization_middleware`'s JWT check (`Usso.jwt_access_security`) is an
  input (`Result<User>`).
- `hmac.compare_digest` is modelled as equality on ASCII strings. Its
  constant-time behaviour is not modelled.
- ImaginationSchemas.ValidatePercentage: Python's `int()` also accepts
  surrounding whitespace, digit-separating underscores and the decimal digits
  of other scripts (such as Arabic-Indic digits); the model accepts only an
  optionally signed run of ASCII digits, so such strings are errors here.
  Floats are exact rationals, so binary rounding of the payload's number is
  not modelled.
- AppAuthScheme.TimestampText: `str()` of a float is a parameter, so the
  float version's key part is only as specified as that rendering.
- ImaginationRoutes.NewImagination: the task fields of a new record are
  taken to start as draft with progress -1. The task mixin that sets them is
  not part of this model.
- ImaginationModels.Fail assigns the strings "error" to the status and task
  status. The model takes these as the enum members. Whether the assignment
  coerces them is decided by the persistence base class, which is not part
  of this model.
- `Tasks.TaskStatusEnum` holds only the members `task_status` uses. The
  library type has more.
- Settings values (root url, app id, app secret, the download service keys)
  are parameters. A setting that is missing and therefore `None` is not
  modelled.
- StocksManager.Search: a failed row conversion is reported as one generic
  error. The exception the provider would raise is not distinguished.
- The `@cached` time-to-live on the utilities' `get_access_token` is not
  modelled: each call builds a fresh request.
- The Zarinpal secret, the wallet ids and the JWT settings of a business are
  not modelled. They take part in none of the rules above.
