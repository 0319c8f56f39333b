/** The image-generation call: a bounded attempt loop over one multipart request, with
    exponential back-off on server and transport failures and immediate errors for rate
    limiting, moderation blocks and every other HTTP error. What each attempt meets on the
    network is a script `send: attempt number -> Attempt`; the back-off sleeps are recorded
    as a sequence of delays in seconds. */
module OpenAIClient {
  import opened Prelude

  const MODERATION_ERROR_MESSAGE: string :=
    "Your " + "image was flagged by the safety filter. Please use different images that comply with content guidelines."
  const RATE_LIMIT_MESSAGE: string := "Rate limit exceeded"
  const NO_IMAGE_DATA_MESSAGE: string := "No image data in response"
  const ALL_RETRIES_FAILED_MESSAGE: string := "Failed after all retries"
  const API_ERROR_PREFIX: string := "API error: "
  const UNEXPECTED_ERROR_PREFIX: string := "Unexpected error: "

  /** `settings.openai_max_retries`, its default value. */
  const OPENAI_MAX_RETRIES: int := 3

  const MODEL: string := "gpt-image-1.5"
  const DEFAULT_QUALITY: string := "medium"
  const DEFAULT_SIZE: string := "1024x1536"
  const JPEG: string := "image/jpeg"

  /** `OpenAIImageError`: its text, an optional HTTP status and the moderation flag
      (status and flag default to None and false). */
  datatype ImageError = ImageError(message: string, statusCode: Option<int>, isModerationError: bool)

  /** The `b64_json` field of a success body: absent or empty, decodable, or not decodable. */
  datatype Inline = NoInline | Decodes(bytes: Bytes) | Undecodable(reason: string)

  /** The `url` field of a success body, with what the follow-up download met. */
  datatype Link =
    | NoLink
    | Downloaded(bytes: Bytes)
    | DownloadStatus(status: int, reason: string)
    | DownloadRaised(reason: string)

  /** A response body: `Unreadable` when reading the fields the code looks at raises
      (not JSON, no `data[0]`, `error` not an object). */
  datatype Body = Unreadable(reason: string) | Body(errorCode: string, inline: Inline, link: Link)

  /** One POST: it raised before a response (timeout, connection error), or it got a status,
      the text of the status error `raise_for_status` would raise, and a body. */
  datatype Attempt = Raised(reason: string) | Replied(status: int, reason: string, body: Body)

  datatype FilePart = FilePart(field: string, filename: string, content: Bytes, contentType: string)

  datatype Request = Request(model: string, prompt: string, quality: string, size: string, n: string, files: seq<FilePart>)

  /** What escapes the body of one attempt. */
  datatype Escape =
    | Returned(bytes: Bytes)
    | ImageErr(error: ImageError)          // OpenAIImageError, re-raised as is
    | StatusErr(status: int, reason: string) // httpx.HTTPStatusError
    | OtherErr(reason: string)             // any other exception

  /** What the attempt loop does next. */
  datatype Step = Return(result: Result<Bytes, ImageError>) | Retry

  datatype Tryon = Tryon(result: Result<Bytes, ImageError>, delays: seq<int>)

  function Pow2(n: nat): (r: nat)
    ensures r >= 1
  {
    if n == 0 then 1 else 2 * Pow2(n - 1)
  }

  predicate IsSuccess(status: int) {
    200 <= status < 300
  }

  function PlainError(message: string): ImageError {
    ImageError(message, None, false)
  }

  /** The body of the `try` for one attempt. Bytes come only from a 2xx reply; a transport
      failure is a generic exception; the client's own errors are the rate limit (429), the
      moderation block (400, flagged) and the missing image data. */
  function Perform(a: Attempt): (r: Escape)
    ensures r.Returned? ==> a.Replied? && IsSuccess(a.status)
    ensures a.Raised? ==> r.OtherErr?
    ensures r.ImageErr? ==>
              && r.error.message in {RATE_LIMIT_MESSAGE, MODERATION_ERROR_MESSAGE, NO_IMAGE_DATA_MESSAGE}
              && (r.error.isModerationError <==> r.error.message == MODERATION_ERROR_MESSAGE)
              && (r.error.statusCode == Some(429) <==> r.error.message == RATE_LIMIT_MESSAGE)
    ensures a.Replied? && a.status == 429 ==> r.ImageErr? && r.error.statusCode == Some(429)
  {
    match a
    case Raised(reason) => OtherErr(reason)
    case Replied(status, reason, body) =>
      if status == 429 then ImageErr(ImageError(RATE_LIMIT_MESSAGE, Some(429), false))
      else if status == 400 && body.Unreadable? then OtherErr(body.reason)
      else if status == 400 && body.errorCode == "moderation_blocked" then
        ImageErr(ImageError(MODERATION_ERROR_MESSAGE, Some(400), true))
      else if !IsSuccess(status) then StatusErr(status, reason)
      else
        match body
        case Unreadable(r) => OtherErr(r)
        case Body(_, inline, link) =>
          match inline
          case Decodes(bytes) => Returned(bytes)
          case Undecodable(r) => OtherErr(r)
          case NoInline =>
            match link
            case Downloaded(bytes) => Returned(bytes)
            case DownloadStatus(s, r) => StatusErr(s, r)
            case DownloadRaised(r) => OtherErr(r)
            case NoLink => ImageErr(PlainError(NO_IMAGE_DATA_MESSAGE))
  }

  /** The `except` clauses of one attempt: only a server error or a generic exception before
      the last attempt is retried; the client's own errors are re-raised unchanged. */
  function Recover(e: Escape, attempt: int, maxRetries: int): (r: Step)
    ensures r.Retry? <==> attempt < maxRetries && (e.OtherErr? || (e.StatusErr? && e.status >= 500))
    ensures r.Return? ==> (r.result.Ok? <==> e.Returned?)
    ensures e.ImageErr? ==> r == Return(Err(e.error))
    ensures r.Return? && r.result.Err? && !e.ImageErr? ==> !r.result.error.isModerationError
  {
    match e
    case Returned(bytes) => Return(Ok(bytes))
    case ImageErr(err) => Return(Err(err))
    case StatusErr(status, reason) =>
      if status >= 500 && attempt < maxRetries then Retry
      else Return(Err(ImageError(API_ERROR_PREFIX + reason, Some(status), false)))
    case OtherErr(reason) =>
      if attempt < maxRetries then Retry
      else Return(Err(PlainError(UNEXPECTED_ERROR_PREFIX + reason)))
  }

  /** The loop from attempt `attempt` on: its result and the delays slept before retrying. */
  function TryFrom(attempt: nat, maxRetries: int, send: int -> Attempt): (r: Tryon)
    ensures |r.delays| <= (if attempt > maxRetries then 0 else maxRetries - attempt)
    ensures r.delays != [] ==> r.delays[0] == Pow2(attempt)
    ensures r.result.Ok? ==> attempt <= maxRetries
    decreases maxRetries - attempt
  {
    if attempt > maxRetries then Tryon(Err(PlainError(ALL_RETRIES_FAILED_MESSAGE)), [])
    else
      match Recover(Perform(send(attempt)), attempt, maxRetries)
      case Return(r) => Tryon(r, [])
      case Retry =>
        var rest := TryFrom(attempt + 1, maxRetries, send);
        Tryon(rest.result, [Pow2(attempt)] + rest.delays)
  }

  /** The request every attempt posts: the fixed model, quality, size and count, the prompt,
      and one `image[]` JPEG part per prepared image, in order and under its name. */
  predicate IsEditRequest(r: Request, images: seq<(string, Bytes)>, prompt: string) {
    && r.model == MODEL && r.prompt == prompt && r.quality == DEFAULT_QUALITY
    && r.size == DEFAULT_SIZE && r.n == "1"
    && |r.files| == |images|
    && forall j :: 0 <= j < |images| ==>
         r.files[j] == FilePart("image[]", images[j].0, images[j].1, JPEG)
  }

  /** The multipart files of one attempt: one `image[]` JPEG part per prepared image, in
      order and under its name. */
  method EditFiles(images: seq<(string, Bytes)>) returns (files: seq<FilePart>)
    ensures |files| == |images|
    ensures forall j :: 0 <= j < |images| ==> files[j] == FilePart("image[]", images[j].0, images[j].1, JPEG)
  {
    files := [];
    for i := 0 to |images|
      invariant |files| == i
      invariant forall j :: 0 <= j < i ==> files[j] == FilePart("image[]", images[j].0, images[j].1, JPEG)
    {
      var (filename, buf) := images[i];
      files := files + [FilePart("image[]", filename, buf, JPEG)];
    }
  }

  /** `generate_tryon`: at most `maxRetries` attempts, one POST each. */
  method GenerateTryon(images: seq<(string, Bytes)>, prompt: string, maxRetries: int, send: int -> Attempt)
    returns (result: Result<Bytes, ImageError>, delays: seq<int>, posts: seq<Request>)
    ensures Tryon(result, delays) == TryFrom(1, maxRetries, send)
    ensures |posts| == if maxRetries < 1 then 0 else |delays| + 1
    ensures forall k :: 0 <= k < |posts| ==> IsEditRequest(posts[k], images, prompt)
  {
    var attempt: nat := 1;
    delays, posts := [], [];
    while attempt <= maxRetries
      invariant 1 <= attempt && |delays| == |posts| == attempt - 1
      invariant attempt == 1 || attempt <= maxRetries
      invariant TryFrom(1, maxRetries, send)
                == Tryon(TryFrom(attempt, maxRetries, send).result,
                         delays + TryFrom(attempt, maxRetries, send).delays)
      invariant forall k :: 0 <= k < |posts| ==> IsEditRequest(posts[k], images, prompt)
      decreases maxRetries - attempt
    {
      var files := EditFiles(images);
      var request := Request(MODEL, prompt, DEFAULT_QUALITY, DEFAULT_SIZE, "1", files);
      assert IsEditRequest(request, images, prompt);
      posts := posts + [request];
      var step := Recover(Perform(send(attempt)), attempt, maxRetries);
      match step
      case Return(r) =>
        TryStep(attempt, maxRetries, send);
        assert delays + [] == delays;
        result := r;
        return;
      case Retry =>
        RetryKeepsTrace(attempt, maxRetries, send, delays);
        delays := delays + [Pow2(attempt)];
        attempt := attempt + 1;
    }
    assert delays + [] == delays;
    result := Err(PlainError(ALL_RETRIES_FAILED_MESSAGE));
  }

  /** One attempt within the budget: the call ends with the attempt's result, or goes on
      from the next attempt after sleeping `2**attempt` seconds. */
  lemma TryStep(attempt: nat, maxRetries: int, send: int -> Attempt)
    requires attempt <= maxRetries
    ensures var step := Recover(Perform(send(attempt)), attempt, maxRetries);
            var rest := TryFrom(attempt + 1, maxRetries, send);
            TryFrom(attempt, maxRetries, send)
              == if step.Return? then Tryon(step.result, []) else Tryon(rest.result, [Pow2(attempt)] + rest.delays)
  {
  }

  /** A retry moves the loop on by one attempt and one delay and keeps what the call returns. */
  lemma RetryKeepsTrace(attempt: nat, maxRetries: int, send: int -> Attempt, delays: seq<int>)
    requires attempt <= maxRetries && Recover(Perform(send(attempt)), attempt, maxRetries).Retry?
    requires TryFrom(1, maxRetries, send)
             == Tryon(TryFrom(attempt, maxRetries, send).result, delays + TryFrom(attempt, maxRetries, send).delays)
    ensures attempt < maxRetries
    ensures TryFrom(1, maxRetries, send)
            == Tryon(TryFrom(attempt + 1, maxRetries, send).result,
                     (delays + [Pow2(attempt)]) + TryFrom(attempt + 1, maxRetries, send).delays)
  {
    TryStep(attempt, maxRetries, send);
    ConcatAssoc(delays, [Pow2(attempt)], TryFrom(attempt + 1, maxRetries, send).delays);
  }

  lemma {:induction false} Pow2Increasing(m: nat, n: nat)
    requires m < n
    ensures Pow2(m) < Pow2(n)
  {
    if m + 1 < n {
      Pow2Increasing(m, n - 1);
    }
  }

  /** The k-th delay is 2 to the power of the attempt it follows, and there are fewer delays
      than attempts left. */
  lemma {:induction false} DelaysFollowAttempts(attempt: nat, maxRetries: int, send: int -> Attempt)
    ensures var d := TryFrom(attempt, maxRetries, send).delays;
            && (|d| == 0 || |d| < maxRetries - attempt + 1)
            && forall k :: 0 <= k < |d| ==> d[k] == Pow2(attempt + k)
    decreases maxRetries - attempt
  {
    if attempt <= maxRetries && Recover(Perform(send(attempt)), attempt, maxRetries).Retry? {
      DelaysFollowAttempts(attempt + 1, maxRetries, send);
      var later := TryFrom(attempt + 1, maxRetries, send).delays;
      var d := TryFrom(attempt, maxRetries, send).delays;
      assert d == [Pow2(attempt)] + later;
      forall k | 0 <= k < |d| ensures d[k] == Pow2(attempt + k) {
        if k > 0 {
          assert d[k] == later[k - 1];
        }
      }
    }
  }

  /** The delays of one call are 2, 4, 8, ...: one per retry, at most `maxRetries - 1` of
      them, strictly increasing. */
  lemma Backoff(maxRetries: int, send: int -> Attempt)
    ensures var d := TryFrom(1, maxRetries, send).delays;
            && |d| <= (if maxRetries < 1 then 0 else maxRetries - 1)
            && (forall k :: 0 <= k < |d| ==> d[k] == Pow2(k + 1))
            && (forall i, j :: 0 <= i < j < |d| ==> d[i] < d[j])
  {
    DelaysFollowAttempts(1, maxRetries, send);
    var d := TryFrom(1, maxRetries, send).delays;
    forall i, j | 0 <= i < j < |d| ensures d[i] < d[j] {
      Pow2Increasing(i + 1, j + 1);
    }
  }

  /** The errors one attempt can end with: none of them is 'Failed after all retries', and the
      moderation flag goes with the moderation message and status 400 and with nothing else. */
  lemma StepErrorShape(a: Attempt, attempt: int, maxRetries: int)
    ensures var step := Recover(Perform(a), attempt, maxRetries);
            step.Return? && step.result.Err? ==>
              var err := step.result.error;
              && err.message != ALL_RETRIES_FAILED_MESSAGE
              && (err.isModerationError <==> err.message == MODERATION_ERROR_MESSAGE)
              && (err.isModerationError ==> err.statusCode == Some(400))
  {
    var step := Recover(Perform(a), attempt, maxRetries);
    if step.Return? && step.result.Err? {
      var m := step.result.error.message;
      match Perform(a)
      case ImageErr(err) =>
        assert err.message in {RATE_LIMIT_MESSAGE, MODERATION_ERROR_MESSAGE, NO_IMAGE_DATA_MESSAGE};
      case StatusErr(_, reason) =>
        assert m == API_ERROR_PREFIX + reason && m[0] == 'A';
        assert MODERATION_ERROR_MESSAGE[0] == 'Y';
      case OtherErr(reason) =>
        assert m == UNEXPECTED_ERROR_PREFIX + reason && m[0] == 'U';
        assert MODERATION_ERROR_MESSAGE[0] == 'Y';
    }
  }

  /** 'Failed after all retries' is the result exactly when no attempt is allowed. */
  lemma {:induction false} AllRetriesFailedOnlyWithoutBudget(attempt: nat, maxRetries: int, send: int -> Attempt)
    ensures var r := TryFrom(attempt, maxRetries, send).result;
            && (attempt > maxRetries <==> r.Err? && r.error.message == ALL_RETRIES_FAILED_MESSAGE)
            && (attempt > maxRetries ==> r == Err(ImageError(ALL_RETRIES_FAILED_MESSAGE, None, false)))
    decreases maxRetries - attempt
  {
    var r := TryFrom(attempt, maxRetries, send).result;
    if attempt <= maxRetries {
      var step := Recover(Perform(send(attempt)), attempt, maxRetries);
      if step.Retry? {
        AllRetriesFailedOnlyWithoutBudget(attempt + 1, maxRetries, send);
      } else {
        StepErrorShape(send(attempt), attempt, maxRetries);
      }
    }
  }

  /** An error is flagged as a moderation block exactly when it carries the fixed moderation
      message, and a flagged error always has status 400. */
  lemma {:induction false} ModerationFlag(attempt: nat, maxRetries: int, send: int -> Attempt)
    ensures var r := TryFrom(attempt, maxRetries, send).result;
            r.Err? ==> (r.error.isModerationError <==> r.error.message == MODERATION_ERROR_MESSAGE)
                       && (r.error.isModerationError ==> r.error.statusCode == Some(400))
    decreases maxRetries - attempt
  {
    var r := TryFrom(attempt, maxRetries, send).result;
    if attempt <= maxRetries {
      var step := Recover(Perform(send(attempt)), attempt, maxRetries);
      if step.Retry? {
        ModerationFlag(attempt + 1, maxRetries, send);
      } else {
        StepErrorShape(send(attempt), attempt, maxRetries);
      }
    }
  }

  /** A 429 ends the call at once with a rate-limit error carrying status 429. */
  lemma RateLimitIsImmediate(attempt: nat, maxRetries: int, send: int -> Attempt)
    requires attempt <= maxRetries && send(attempt).Replied? && send(attempt).status == 429
    ensures TryFrom(attempt, maxRetries, send)
            == Tryon(Err(ImageError(RATE_LIMIT_MESSAGE, Some(429), false)), [])
  {
  }

  /** A success returns the bytes of the last attempt's response: the inline base64 data when
      there is any, otherwise the download of the returned URL. */
  lemma {:induction false} SuccessSource(attempt: nat, maxRetries: int, send: int -> Attempt)
    ensures var t := TryFrom(attempt, maxRetries, send);
            var last := send(attempt + |t.delays|);
            t.result.Ok? ==>
              && attempt + |t.delays| <= maxRetries
              && last.Replied? && IsSuccess(last.status) && last.body.Body?
              && (|| (last.body.inline.Decodes? && t.result.value == last.body.inline.bytes)
                  || (last.body.inline.NoInline? && last.body.link.Downloaded?
                      && t.result.value == last.body.link.bytes))
    decreases maxRetries - attempt
  {
    if attempt <= maxRetries && Recover(Perform(send(attempt)), attempt, maxRetries).Retry? {
      SuccessSource(attempt + 1, maxRetries, send);
      var t := TryFrom(attempt, maxRetries, send);
      var t' := TryFrom(attempt + 1, maxRetries, send);
      assert attempt + |t.delays| == attempt + 1 + |t'.delays|;
    }
  }

  /** A server error or a transport failure on the last allowed attempt is reported, not
      retried: a 5xx keeps its status, anything else becomes an unexpected error. */
  lemma LastAttemptIsNotRetried(maxRetries: int, send: int -> Attempt)
    requires maxRetries >= 1
    ensures var e := Perform(send(maxRetries));
            Recover(e, maxRetries, maxRetries).Return?
            && (e.StatusErr? ==> Recover(e, maxRetries, maxRetries).result
                                 == Err(ImageError(API_ERROR_PREFIX + e.reason, Some(e.status), false)))
            && (e.OtherErr? ==> Recover(e, maxRetries, maxRetries).result
                                == Err(ImageError(UNEXPECTED_ERROR_PREFIX + e.reason, None, false)))
  {
  }

  /** A 400 reply whose error code is `moderation_blocked` ends the call at once with the fixed
      moderation message, status 400 and the moderation flag. */
  lemma ModerationIsImmediate(attempt: nat, maxRetries: int, send: int -> Attempt)
    requires attempt <= maxRetries
    requires send(attempt).Replied? && send(attempt).status == 400
    requires send(attempt).body.Body? && send(attempt).body.errorCode == "moderation_blocked"
    ensures TryFrom(attempt, maxRetries, send)
            == Tryon(Err(ImageError(MODERATION_ERROR_MESSAGE, Some(400), true)), [])
  {
  }

  /** Any other unsuccessful reply below 500 (a 400 that is not a moderation block, a 401, a
      404, a redirect, ...) ends the call at once as an API error carrying its status. */
  lemma ClientErrorIsImmediate(attempt: nat, maxRetries: int, send: int -> Attempt)
    requires attempt <= maxRetries
    requires send(attempt).Replied? && !IsSuccess(send(attempt).status)
    requires send(attempt).status < 500 && send(attempt).status != 429
    requires send(attempt).status == 400 ==>
               send(attempt).body.Body? && send(attempt).body.errorCode != "moderation_blocked"
    ensures TryFrom(attempt, maxRetries, send)
            == Tryon(Err(ImageError(API_ERROR_PREFIX + send(attempt).reason, Some(send(attempt).status), false)), [])
  {
  }

  /** A server error or a transport failure before the last attempt sleeps `2**attempt`
      seconds and tries again: the call ends as the next attempt's does. */
  lemma TransientIsRetried(attempt: nat, maxRetries: int, send: int -> Attempt)
    requires attempt < maxRetries
    requires send(attempt).Raised? || (send(attempt).Replied? && send(attempt).status >= 500)
    ensures var rest := TryFrom(attempt + 1, maxRetries, send);
            TryFrom(attempt, maxRetries, send) == Tryon(rest.result, [Pow2(attempt)] + rest.delays)
  {
  }

  /** A successful reply with neither inline data nor a URL ends the call at once: the missing
      image data is not retried. */
  lemma NoImageDataNotRetried(attempt: nat, maxRetries: int, send: int -> Attempt)
    requires attempt <= maxRetries
    requires send(attempt).Replied? && IsSuccess(send(attempt).status)
    requires send(attempt).body.Body? && send(attempt).body.inline.NoInline? && send(attempt).body.link.NoLink?
    ensures TryFrom(attempt, maxRetries, send) == Tryon(Err(ImageError(NO_IMAGE_DATA_MESSAGE, None, false)), [])
  {
  }
}
