# wearon-worker in Dafny

This project models the background worker of the WearOn virtual try-on service and proves
properties of that model. It has two parts.

- **The generation pipeline.**
  - A queue consumer pops JSON payloads from Redis. It validates each payload into a
    `GenerationTask` and hands the task's dump to the Celery task.
  - The task handler marks the session `processing` and downloads the images. It then asks the
    OpenAI image-edit API for the try-on, stores the result and marks the session `completed`.
    A rate-limited generation is re-delivered once. Every other failure refunds the owner's
    credit and marks the session `failed`.
  - A startup reconciler fails every session left `queued` or `processing` by a previous
    worker and refunds its owner.
  - The OpenAI client retries 5xx responses and transport failures with exponential back-off.
- **The size recommender.** It clamps body measurements taken from pose landmarks, chooses a
  garment size by threshold, and classifies the body type by the shoulder-to-hip ratio. It
  gives a size range that narrows with the pose's visibility.

## Modules

- `prelude.dfy` (`Prelude`): `Option`, `Result`, the `Outcome` of a scripted external call
  (`Succeeds | Raises`), and bytes.
- `generation.dfy` (`Generation`): the four session statuses and the `SessionUpdate` record.
- `task_payload.dfy` (`TaskPayload`): the queue contract.
  - A JSON value type and `GenerationTask`.
  - The validating constructor `FromDict`, which returns the task or the failing fields.
  - `Dump`, the serialiser.
- `gateway.dfy` (`Gateway`): the external services.
  - The session tables, the refunds given, the storage bucket and a log of every call made form
    one value, `World`.
  - `class Backend` holds a `World` and has one method per call. Each method states its new
    state as a function of the old one. A scripted `Outcome` says whether the call raises.
- `openai_client.dfy` (`OpenAIClient`): `generate_tryon`.
  - The method `GenerateTryon` runs the attempt loop.
  - The function `TryFrom` specifies it: the result and the list of back-off delays.
- `tasks.dfy` (`Tasks`): `process_generation` and `_refund_credit`.
  - The function `Handle` describes the handler.
  - The method `ProcessGeneration` runs it on a `Backend`, and is proved to end in the state
    `Handle` gives.
- `startup.dfy` (`Startup`): `cleanup_stuck_sessions`.
  - The function `Cleanup` describes the reconciler.
  - The nested-loop method `CleanupStuckSessions` runs it, and is proved to end in the state
    `Cleanup` gives.
- `consumer.dfy` (`Consumer`): `run_consumer`.
  - Queue pops come from a finite script: timeout, payload, interrupt or failure.
  - The method `RunConsumer` is proved equal to the function `Consume`, which gives the
    dispatched dumps, the log events and whether the loop stopped.
- `size_rec_models.dfy` (`SizeRecModels`): the request and response records of the size API,
  and their declared constraints.
- `size_calculator.dfy` (`SizeCalculator`): the size, body-type and range logic over `real`.

What each external call does is a parameter of the model:

- a `Script` for the handler;
- a `SweepScript` for the reconciler;
- a function from attempt number to HTTP outcome for the OpenAI client;
- a JSON parser for the consumer;
- a square root for the size calculator.

Every property therefore holds for every behaviour of those services.

## Model

| member | source | states |
|---|---|---|
| Generation.ParseStatus | models/generation.py:5 | a status name parses only to the status carrying that name |
| Generation.ParseStatusExact | models/generation.py:5 | a name parses exactly when it is one of `queued`, `processing`, `completed`, `failed`; every status's name parses back to it |
| Gateway.StatusOnlyWrite | worker/tasks.py:48-50 | a write of the status alone, as in `{'status': 'processing'}`, replaces the status and keeps every other column, so an earlier result URL and error message survive it |
| TaskPayload.Dump | models/task_payload.py:12-21 | the dump has exactly the ten declared keys, and carries the task's `session_id` and channel literal |
| TaskPayload.FromDict | models/task_payload.py:6-21 | an accepted payload holds every required key and carries the task's `session_id` and channel literal; a rejected one reports a non-empty set of failing fields, all of them declared |
| TaskPayload.Failures | models/task_payload.py:12-21 | the failures listed are declared fields, and none is listed exactly when every field validates |
| TaskPayload.RoundTrip | models/task_payload.py:6-21 | rebuilding a task from its dump gives the same task |
| TaskPayload.MissingRequiredFieldRejected | models/task_payload.py:12-21 | a payload lacking any of `task_id`, `channel`, `session_id`, `image_urls`, `prompt`, `request_id`, `created_at` is rejected, and that field is among the failures reported |
| TaskPayload.ChannelIsLiteral | models/task_payload.py:13 | a payload is accepted only when `channel` is the string `b2b` or `b2c`; any other value is rejected |
| TaskPayload.Defaults | models/task_payload.py:14-20 | absent `store_id` and `user_id` become None, and an absent `version` becomes 1 |
| TaskPayload.ExtraFieldsIgnored | models/task_payload.py:6-21 | keys outside the declared fields do not change the outcome |
| TaskPayload.ProducerContractNotEnforced | models/task_payload.py:12-21 | some payload the class accepts breaks the producer-side rules `ProducerContract` states (owner present for its channel, at least one image) |
| OpenAIClient.GenerateTryon | services/openai_client.py:31-126 | the attempt loop's result and delays are those of `TryFrom`; it makes one POST per attempt, none when the budget is below 1, each an edit request with every image and the prompt |
| OpenAIClient.EditFiles | services/openai_client.py:60-62 | one `image[]` JPEG part per prepared image, in order, under the image's name |
| OpenAIClient.Perform | services/openai_client.py:72-106 | bytes come only from a 2xx reply; a transport failure is a generic exception; a 429 reply is always the rate-limit error with status 429; the client's own errors carry only the rate-limit, moderation or missing-image message, flagged exactly when it is the moderation message |
| OpenAIClient.Recover | services/openai_client.py:108-124 | an attempt is retried exactly when it is not the last and failed with a 5xx or a generic exception; it succeeds exactly when the attempt returned bytes; the client's own errors are re-raised unchanged, and no other error is flagged as moderation |
| OpenAIClient.TryFrom | services/openai_client.py:56-126 | there are fewer delays than attempts left, the first is `2**attempt`, and a success happens only within the budget |
| OpenAIClient.Pow2Increasing | services/openai_client.py:113 | the back-off `2**attempt` strictly increases with the attempt |
| OpenAIClient.DelaysFollowAttempts | services/openai_client.py:110-124 | the k-th delay is `2**(attempt+k)`, and there are fewer delays than attempts left |
| OpenAIClient.Backoff | services/openai_client.py:110-124 | the delays of a call are 2, 4, 8, …, at most `max_retries - 1` of them, strictly increasing |
| OpenAIClient.StepErrorShape | services/openai_client.py:80-124 | no single attempt ends with 'Failed after all retries'; the moderation flag goes exactly with the moderation message, and always with status 400 |
| OpenAIClient.AllRetriesFailedOnlyWithoutBudget | services/openai_client.py:56-126 | the result is 'Failed after all retries' exactly when no attempt is allowed, and then it has no status and no moderation flag |
| OpenAIClient.ModerationFlag | services/openai_client.py:13-28 | an error is flagged as a moderation block exactly when it carries the moderation message, and a flagged error has status 400 |
| OpenAIClient.RateLimitIsImmediate | services/openai_client.py:80-81 | a 429 ends the call at once, with no delay, as an error with status 429 |
| OpenAIClient.SuccessSource | services/openai_client.py:90-106 | a success returns the inline base64 image when there is one, otherwise the download of the returned URL |
| OpenAIClient.LastAttemptIsNotRetried | services/openai_client.py:110-124 | the last attempt is never retried: a 5xx there is an 'API error' with that status; a transport failure there is an 'Unexpected error' with no status |
| OpenAIClient.ModerationIsImmediate | services/openai_client.py:83-88 | a 400 reply with error code `moderation_blocked` ends the call at once, with no delay, as the flagged moderation error with status 400 |
| OpenAIClient.ClientErrorIsImmediate | services/openai_client.py:83-117 | any other unsuccessful reply below 500 ends the call at once, with no delay, as an 'API error' carrying its status |
| OpenAIClient.TransientIsRetried | services/openai_client.py:110-124 | a 5xx or a transport failure before the last attempt sleeps `2**attempt` seconds, and the call ends as the next attempt's does |
| OpenAIClient.NoImageDataNotRetried | services/openai_client.py:92-109 | a successful reply with neither inline data nor a URL ends the call at once with 'No image data in response' and no status |
| Gateway.ListRows | worker/startup.py:20-26 | the rows returned are a listing of the table's `queued`/`processing` rows: each exactly once, with its owner |
| Gateway.Backend.Update | worker/tasks.py:48-50 | a status write changes only the addressed row, and is logged; it raises exactly when scripted to |
| Gateway.Backend.RequestRefund | worker/tasks.py:131 | a refund is logged, and recorded only when it does not raise |
| Gateway.Backend.ListInFlight | worker/startup.py:20-26 | the select is logged; it raises when scripted or when the table does not exist, and otherwise returns a listing of the in-flight rows |
| Gateway.Backend.Download | worker/tasks.py:59 | a download is logged, and returns the bytes unless it raises |
| Gateway.Backend.Generate | worker/tasks.py:63-69 | the generator is logged with the image names and prompt, and returns what `TryFrom` gives under the three-attempt budget |
| Gateway.Backend.Upload | worker/tasks.py:80-84 | an upload is logged, and stores the bytes at the path unless it raises |
| Gateway.Backend.SignedUrl | worker/tasks.py:87-88 | a signing request is logged, and returns the signed URL when the response carries one |
| Tasks.SessionTable | worker/tasks.py:14-15 | b2b tasks use `store_generation_sessions`, every other channel `generation_sessions` |
| Tasks.CreditIdField | worker/tasks.py:18-19 | b2b tasks use `store_id`, every other channel `user_id` |
| Tasks.OwnerId | worker/tasks.py:22-23 | the owner is the store id for b2b and the user id for b2c |
| Tasks.StoragePath | worker/tasks.py:74-78 | the path ends in the session id and `.jpg`, and starts with `stores/` and the owner for b2b, `generated/` and the owner otherwise |
| Tasks.ImageNameForm | worker/tasks.py:58 | the first image is named `model`, and only it; the image at position `i > 0` is named `image_` followed by `i` in decimal |
| Tasks.ImageNamesDistinct | worker/tasks.py:58 | images at different positions get different names |
| Tasks.StoragePathsSeparate | worker/tasks.py:74-78 | b2b and b2c results never share a path; within one channel and owner, two paths are equal exactly when the session ids are; every path ends in `.jpg` |
| Tasks.PrepareFrom | worker/tasks.py:56-60 | the download loop touches no table, refund or storage, and a loop that finishes yields one image per URL |
| Tasks.DownloadImages | worker/tasks.py:56-60 | the download loop ends in the state, and with the images, that `PrepareFrom` gives |
| Tasks.PrepareCalls | worker/tasks.py:56-60 | downloading changes only the call log, where it appends one download per image tried, in URL order, each with its image's name |
| Tasks.PrepareImages | worker/tasks.py:56-60 | the loop yields one `(name.jpg, bytes)` pair per URL, in order, and yields nothing exactly when some download raises |
| Tasks.Deliver | worker/tasks.py:73-93 | storing, signing and the completed write give no refund, and end without exception exactly when all three succeed; any failure there is a generic exception |
| Tasks.Pipeline | worker/tasks.py:46-95 | the main block gives no refund; anything but a generic exception means the processing write succeeded; a clean end means the upload, the signing and the completed write succeeded |
| Tasks.RunPipeline | worker/tasks.py:46-95 | the main block ends in the state, with the handler choice, that `Pipeline` gives |
| Tasks.PipelineOutcome | worker/tasks.py:46-121 | the image-error handler catches exactly the generator's errors, unchanged; the block ends without exception exactly when every call in it succeeds |
| Tasks.UpdatedOnlyRow | worker/tasks.py:48-50 | a session write changes no row but the addressed one |
| Tasks.DeliverFrame | worker/tasks.py:73-93 | storing and signing give no refund, change only the task's own row, and store at most the generated image at the task's path |
| Tasks.PipelineFrame | worker/tasks.py:46-95 | the main block gives no refund, changes only the task's row, and stores nothing but the generated image at the task's path |
| Tasks.PipelineCalls | worker/tasks.py:46-60 | the main block only appends calls, and its first call marks the session processing |
| Tasks.CreditRefunded | worker/tasks.py:124-134 | a refund changes no table and no storage; it appends the refund call for a present owner and records a refund only when that call does not raise |
| Tasks.MarkFailed | worker/tasks.py:107-121 | a final failure never asks for re-delivery, touches no storage, and adds exactly the refund given |
| Tasks.Requeue | worker/tasks.py:101-105 | a re-delivery gives no refund, touches no storage, and exits with the countdown of 10 seconds unless the queued write raises |
| Tasks.Handle | worker/tasks.py:26-121 | a re-delivery has countdown 10, gives no refund and happens only while the retry budget of 1 is unused; refunds are only added |
| Tasks.RefundCredit | worker/tasks.py:124-134 | the refund helper ends in the state `CreditRefunded` gives: one refund call of amount 1, only for a present, non-empty owner id, whose failure is swallowed |
| Tasks.ProcessGeneration | worker/tasks.py:26-121 | the handler ends with the exit, and in the state, that `Handle` gives |
| Tasks.InvalidPayloadRaises | worker/tasks.py:37 | a payload that does not build a task raises before any call is made |
| Tasks.ProcessingMarkedFirst | worker/tasks.py:46-50 | whatever happens, the handler only appends calls, and its first call marks the session processing, before any download |
| Tasks.HandleAfterPipeline | worker/tasks.py:97-121 | the failure handlers only append calls to what the main block made |
| Tasks.CompletedRun | worker/tasks.py:73-93 | a clean run returns, gives no refund, stores the generated image at the task's path, and leaves the session completed with the signed URL, or `''` when there is none |
| Tasks.RateLimitRequeue | worker/tasks.py:97-105 | a re-delivery happens exactly when the generator fails with 429, the retry budget of 1 is unused and the queued write succeeds; it has countdown 10, no refund, and leaves the session queued with the rate-limit message |
| Tasks.MarkFailedEffects | worker/tasks.py:107-134 | the failure handlers refund (at most one call, for a present owner), then write `failed` with the message; nothing else changes; a failed write escapes |
| Tasks.TerminalFailure | worker/tasks.py:97-121 | a run that neither completes nor is re-delivered refunds once, then marks the session failed with the generator's message, or with the internal-error message for any other failure |
| Tasks.ModeratedSessionFails | worker/tasks.py:97-112 | a moderation block is never re-delivered; the handler raises exactly when the failed write does; the owner is refunded and the session is left failed with the moderation message |
| Tasks.AtMostOneRefund | worker/tasks.py:97-134 | a run adds at most one refund and keeps the earlier ones; a refund goes to the task's owner only when the run neither completes nor is re-delivered |
| Tasks.FailedSessionIsReprocessed | worker/tasks.py:46-50 | there is no status guard: a session already failed is processed again and ends completed when every call succeeds |
| Startup.SweepListed | worker/startup.py:33-46 | the row loop ends in the state that `SweepRows` gives |
| Startup.SweepStuck | worker/startup.py:19-49 | one table's guarded block ends in the state that `SweepTable` gives, for the listing the select returned |
| Startup.CleanupStuckSessions | worker/startup.py:8-49 | the reconciler ends in the state `Cleanup` gives, each table swept with a listing of itself as its sweep began |
| Startup.SweepRows | worker/startup.py:33-46 | a row sweep touches no storage and adds no table, only appends calls, and adds at most one refund per listed row |
| Startup.SweepTable | worker/startup.py:19-49 | a table's sweep adds at most one refund per listed row, and its first call is the select; a select that raises, or a missing table, changes no row and gives no refund |
| Startup.Cleanup | worker/startup.py:15-49 | the reconciler touches no storage, adds no table, only appends calls and refunds, and makes at least one call per table |
| Startup.SweepRowsLog | worker/startup.py:33-46 | a row sweep touches no storage; its calls follow the listing row by row, each failed write before its refund, and stop at the first call that raises |
| Startup.SweepRowsAllDone | worker/startup.py:33-46 | when nothing raises, every listed row gets its failed write and refund, and every owner its refund |
| Startup.SweepRowsFrame | worker/startup.py:33-39 | a row sweep changes only the listed rows of its own table |
| Startup.SweepRowsMarks | worker/startup.py:36-39 | a listed row whose failed write is reached and succeeds ends failed with the restart message, whatever happens after it |
| Startup.SweepRowsMarksAll | worker/startup.py:33-39 | when nothing raises, every listed row ends failed with the restart message |
| Startup.OwnerRefundsCount | worker/startup.py:42-44 | with distinct ids, one refund is given per listed row whose owner id is present and non-empty |
| Startup.ListingOwned | worker/startup.py:20-44 | the owned rows of a listing are exactly the table's in-flight rows with an owner |
| Startup.SweepRowsSameTable | worker/startup.py:33-46 | what a row sweep leaves in its own table depends only on that table |
| Startup.SweepTableEffects | worker/startup.py:19-49 | a table's sweep makes the select first, touches no storage, and changes only that table's in-flight rows; a select that raises, or a missing table, leaves only the select call; an empty listing writes nothing |
| Startup.SweepTableClean | worker/startup.py:19-46 | with nothing raising, each in-flight row gets its failed write and owner refund; afterwards no row is in flight, each such row is failed with the restart message, and one refund is given per owned in-flight row |
| Startup.CleanupIsolation | worker/startup.py:15-49 | each table ends as if swept alone, so a failure in one table does not affect the other; storage and every other table are untouched |
| Startup.CleanupLog | worker/startup.py:15-46 | the calls are the first table's select and a prefix of its row calls, then the same for the second table |
| Startup.CleanSweep | worker/startup.py:8-49 | a sweep in which nothing raises leaves no session of either table in flight, fails every one that was, and gives one refund per in-flight session with an owner |
| Startup.HandlerTablesAreSwept | worker/startup.py:15-18 | the reconciler sweeps exactly the handler's two session tables, in order, each with the owner column and refund parameter the handler uses |
| Consumer.RunConsumer | worker/consumer.py:21-65 | the loop's dispatches, log events and stop flag are those of `Consume` |
| Consumer.Receive | worker/consumer.py:36-59 | a received payload always logs an event, and hands over a dump only when it decodes to an object that builds a task and the delivery succeeds, and then it is that task's dump |
| Consumer.TurnOf | worker/consumer.py:30-65 | only a received payload hands over a dump; every pop but a timeout logs an event; none logs the shutdown |
| Consumer.Consume | worker/consumer.py:21-65 | the log starts with `consumer_started` on the queue key, and at most one dump is handed over per pop |
| Consumer.TurnDispatch | worker/consumer.py:32-65 | one pop hands over a dump exactly when its payload decodes, builds a task and is delivered, and then it is that task's dump; a timeout logs nothing; any other failure logs `consumer_error` and the loop goes on |
| Consumer.Dispatched | worker/consumer.py:30-59 | the dumps handed over are, in pop order, exactly those of the valid payloads popped before the first interrupt |
| Consumer.StopsAtInterrupt | worker/consumer.py:61-65 | the loop stops exactly when it meets an interrupt, with the shutdown as the last event; whatever follows in the queue makes no difference; every other failure is logged and the loop goes on |
| Consumer.DroppedPayloads | worker/consumer.py:38-49 | an undecodable payload is logged by its first 200 characters; an invalid one by its `request_id`, or 'unknown', and the failing fields; a non-object is a consumer error; none is handed over |
| Consumer.DispatchedRebuilds | worker/consumer.py:44-59 | a handed-over dump is the built task's, carries the payload's `session_id`, and rebuilds to the same task |
| SizeRecModels.ParseSize | models/size_rec.py:25-26 | a size name parses only to the size carrying that name |
| SizeRecModels.SizeIndex | size_rec/size_calculator.py:5 | a size's index is its position in the size order |
| SizeRecModels.ParseBodyType | models/size_rec.py:35 | a body-type name parses only to the type carrying that name |
| SizeRecModels.LiteralsAccepted | models/size_rec.py:25-35 | the literal checks accept exactly the six size names and the four body-type names, and every value's name parses back to it |
| SizeCalculator.Clamp | size_rec/size_calculator.py:29-30 | with `lo <= hi`, the result lies in `[lo, hi]` and is the value itself when that is in range |
| SizeCalculator.ClampMonotone | size_rec/size_calculator.py:29-30 | clamping keeps the order of values |
| SizeCalculator.Reference | size_rec/size_calculator.py:34 | the reference is one of chest, waist and hip, and at least each of them |
| SizeCalculator.ChooseSize | size_rec/size_calculator.py:5-38 | the size chosen admits the reference, and no smaller size in size order does (XXL admits every reference) |
| SizeCalculator.ChooseSizeMonotone | size_rec/size_calculator.py:33-38 | a larger reference never gets a smaller size |
| SizeCalculator.BodyTypeBands | size_rec/size_calculator.py:41-49 | broad above 1.12, athletic in (1.03, 1.12], slim below 0.93, average otherwise; broader shoulders never give a narrower type |
| SizeCalculator.BodyTypeOf | size_rec/size_calculator.py:41-49 | with the hip width floored at 1, the type is broad above 1.12 times it, athletic in (1.03, 1.12], slim below 0.93, average otherwise |
| SizeCalculator.Distance | size_rec/size_calculator.py:20-26 | the distance is the root of the squared gap, whichever landmark comes first |
| SizeCalculator.SquaredGap | size_rec/size_calculator.py:23-26 | the squared gap is never negative, and is zero for two landmarks at the same position |
| SizeCalculator.Confidence | size_rec/size_calculator.py:80-81 | the confidence lies in [0.4, 0.98], and in [0.55, 0.9] when every visibility is in [0, 1] |
| SizeCalculator.SizeRangeFor | size_rec/size_calculator.py:52-59 | at confidence 0.8 or more the range is the size alone; below, it spans the size's neighbours, clipped at XS and XXL, holding the size, with lower below upper |
| SizeCalculator.MinY | size_rec/size_calculator.py:66 | the minimum is one of the landmarks' `y` and at most each of them |
| SizeCalculator.MaxY | size_rec/size_calculator.py:67 | the maximum is one of the landmarks' `y` and at least each of them |
| SizeCalculator.BodyHeightUnits | size_rec/size_calculator.py:68-70 | the body-height divisor is at least 0.25, so the scale is defined |
| SizeCalculator.CalculateSizeRecommendation | size_rec/size_calculator.py:62-98 | the response meets the declared constraints; measurements lie within their clamp bounds; confidence is in [0.4, 0.98]; size, body type and range are those of the measurements and confidence |
| SizeCalculator.ConfidenceOfConstant | size_rec/size_calculator.py:80-81 | landmarks all of visibility `c` in [0, 1] give confidence `0.55 + 0.35 c` |
| SizeCalculator.ConfidenceOfVisibility | size_rec/size_calculator.py:80-85 | full visibility gives confidence 0.9 and the size alone as range; no visibility gives 0.55 and a range of several sizes |

## Left out

- I/O and clients.
  - Redis, Supabase, HTTP and the OpenAI transport are modelled only through their effects on
    `World` and through scripted outcomes.
  - Client construction (`get_redis_consumer`, `get_supabase`) is not modelled. So a client
    that cannot be built is not modelled either.
- Logging in the handler, the reconciler and the OpenAI client is left out. That includes the
  client's log calls at services/openai_client.py:58, 87, 95, 100, 114 and 121. The consumer's
  log events are modelled, because they are its only output besides dispatch.
- Image download and decoding (`services/image_processor.py`, `size_rec/image_processing.py`)
  are not part of this model. A download is a scripted `Fetch`.
- The pose estimator (`size_rec/mediapipe_service.py`) and the HTTP API (`size_rec/app.py`)
  are not part of this model.
  - Note that `/health` builds `HealthResponse` with `model_loaded`, while the record declares
    `size_rec_model_loaded` and `celery_connected` and forbids extra fields
    (size_rec/app.py:76-80 against models/size_rec.py:39-45).
- Celery and process plumbing (`worker/celery_app.py`, the rate limit of 300 per minute,
  concurrency, acknowledgement) are not modelled.
  - The retry count is a parameter of `Handle`.
  - `self.retry` is modelled as the exit `RetryRaised(10)`.
  - The per-task event loop and real sleeps are left out; the back-off delays are recorded as
    data.
- The consumer loop never ends on its own. The model runs it over a finite list of pops, which
  is the part of the run observed so far.
- JSON is a parameter: `parse` gives the decoded value or nothing.
  - Pydantic's lax coercions (a numeric string or an integral float for `version`, and the
    like) are not modelled. `version` accepts only an integer.
  - A validation error's text is modelled as the list of failing fields.
- The size-rec records' `strict=True` and `extra='forbid'`: a record here holds exactly its
  declared fields. The `HttpUrl` check of `image_url` is not modelled.
- `math.sqrt` is a parameter, an arbitrary function from `real` to `real`; nothing is assumed
  of it, not even that its result is non-negative. So no property here depends on the root.
  Floating-point rounding is not modelled; the calculator works on exact reals.
- SizeCalculator.CalculateSizeRecommendation: returns the measurements and confidence before
  `round(…, 1)` and `round(…, 3)`. It requires at least 25 landmarks (the right hip's index
  is 24), where a shorter list makes the code raise. It does not require the height to lie in
  [100, 250], because the clamps alone keep the response valid.
- Gateway.Backend.Update: a write to a missing table, or to an id the table lacks, is logged
  and changes nothing, and it raises only when scripted to. `ListInFlight`, by contrast, raises
  for a missing table. A real update of a missing table would fail at the database; the model
  does not tie the two together.
- SizeCalculator.SquaredGap: states only that the gap is non-negative and zero at one
  position; that it is positive for two distinct positions is not stated.
- Gateway.Backend.Upload: overwrites any object already at the path. The storage service's
  refusal of an existing object is covered only as an upload that raises.
- The two mismatches with the database's generated types are not modelled; refunds are an
  abstract call keyed by parameter name.
  - The session column there is `generated_image_url`, not `result_image_url`.
  - The refund function there takes only `p_user_id`, yet b2b sends `p_store_id`.

## Code and documentation

Where the repository's description of the service and its code disagree, the model follows
the code.

- The handler has no guard for a session already marked failed. It writes `processing`
  unconditionally (`Tasks.FailedSessionIsReprocessed`).
- `GenerationTask` declares no validator. The test file expects three rejections:
  - b2c without `user_id`;
  - b2b without `store_id`;
  - empty `image_urls`.

  The model states these rules separately as `TaskPayload.ProducerContract`, and
  `TaskPayload.ProducerContractNotEnforced` shows that the class accepts a payload breaking
  them.
- A 5xx on the last allowed attempt raises 'API error: …' with its status. 'Failed after all
  retries' arises only when the budget is below one attempt.
- `raise_for_status` raises on every status outside 200-299. A redirect is modelled as an API
  error too.
