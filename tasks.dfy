/** The generation task handler: it marks the session processing, downloads the images,
    asks the image API for the try-on, stores the result and marks the session completed;
    a generator failure with status 429 asks for one re-delivery, and every other failure
    refunds the owner's credit and marks the session failed.

    `Handle` is the handler as a function of the services' state and of what each external
    call does (a `Script`); `ProcessGeneration` is the handler as a method over a `Backend`,
    proved to end in the state `Handle` describes. */
module Tasks {
  import opened Prelude
  import opened Generation
  import opened TaskPayload
  import opened Gateway
  import OpenAIClient

  /** The task's own retry budget: a rate-limited generation is re-delivered at most once. */
  const TASK_MAX_RETRIES: nat := 1
  /** Seconds before a re-delivery. */
  const RETRY_COUNTDOWN: int := 10
  /** Lifetime of the result's signed URL, in seconds (six hours). */
  const SIGNED_URL_TTL: int := 21600
  const RATE_LIMITED_MESSAGE: string := "Rate limited, retrying..."
  const INTERNAL_ERROR_MESSAGE: string := "Internal error during generation"

  /** `_get_session_table`: b2b tasks live in the store table, every other channel in the
      user table. */
  function SessionTable(c: Channel): (r: string)
    ensures c == B2B <==> r == "store_generation_sessions"
    ensures c != B2B <==> r == "generation_sessions"
  {
    assert "store_generation_sessions"[0] != "generation_sessions"[0];
    if c == B2B then "store_generation_sessions" else "generation_sessions"
  }

  /** `_get_credit_id_field`: the owner column, and the refund parameter's suffix. */
  function CreditIdField(c: Channel): (r: string)
    ensures c == B2B <==> r == "store_id"
    ensures c != B2B <==> r == "user_id"
  {
    assert "store_id"[0] != "user_id"[0];
    if c == B2B then "store_id" else "user_id"
  }

  /** The name of the refund RPC's owner parameter. */
  function CreditParam(c: Channel): string {
    "p_" + CreditIdField(c)
  }

  /** `_get_owner_id`: the owner id the channel makes authoritative; it may be missing. */
  function OwnerId(t: GenerationTask): (r: Option<string>)
    ensures t.channel == B2B ==> r == t.storeId
    ensures t.channel == B2C ==> r == t.userId
  {
    if t.channel == B2B then t.storeId else t.userId
  }

  /** How an optional owner id reads when formatted into a path: a missing one reads "None". */
  function OwnerText(o: Option<string>): string {
    if o.Some? then o.value else "None"
  }

  /** Where the result is stored: under `stores/` for b2b and `generated/` otherwise, then the
      owner, ending in the session id and `.jpg`. */
  function StoragePath(t: GenerationTask): (r: string)
    ensures var tail := t.sessionId + ".jpg";
            |r| > |tail| && r[|r| - |tail|..] == tail
    ensures var owner := OwnerText(OwnerId(t));
            if t.channel == B2B then |r| > 7 + |owner| && r[..7] == "stores/" && r[7..7 + |owner|] == owner
            else |r| > 10 + |owner| && r[..10] == "generated/" && r[10..10 + |owner|] == owner
  {
    if t.channel == B2B then "stores/" + OwnerText(OwnerId(t)) + "/generated/" + t.sessionId + ".jpg"
    else "generated/" + OwnerText(OwnerId(t)) + "/" + t.sessionId + ".jpg"
  }

  function Digit(d: nat): char
    requires d < 10
  {
    "0123456789"[d]
  }

  /** Decimal digits of `n`, most significant first. */
  function NatToString(n: nat): (s: string)
    ensures |s| >= 1
    ensures n >= 10 ==> |s| >= 2
  {
    if n < 10 then [Digit(n)] else NatToString(n / 10) + [Digit(n % 10)]
  }

  /** The name of the image at position `i` of the task: the first is the model photo. */
  function ImageName(i: nat): string {
    if i == 0 then "model" else "image_" + NatToString(i)
  }

  /** The model photo is named `model`, every other image `image_` followed by its position
      in decimal. */
  lemma ImageNameForm(i: nat)
    ensures i == 0 <==> ImageName(i) == "model"
    ensures i > 0 ==> var r := ImageName(i); |r| > 6 && r[..6] == "image_" && r[6..] == NatToString(i)
  {
    if i > 0 {
      assert ImageName(i)[0] != "model"[0];
    }
  }

  /** How the handler ends, as the task queue sees it. */
  datatype Exit =
    | Returned                      // the session was marked completed or failed
    | RetryRaised(countdown: int)   // re-delivery after `countdown` seconds was requested
    | ErrorRaised                   // an exception escaped the handler

  /** What each external call made while handling one task does. */
  datatype Script = Script(
    processingWrite: Outcome,
    download: (string, string) -> Fetch,
    send: int -> OpenAIClient.Attempt,
    upload: Outcome,
    sign: Signing,
    completedWrite: Outcome,
    queuedWrite: Outcome,
    refund: Outcome,
    failedWrite: Outcome)

  /** Which of the two handlers catches what escapes the main block, if anything does. */
  datatype Caught = NoException | ImageFailure(error: OpenAIClient.ImageError) | OtherException

  datatype Prepared = Prepared(world: World, images: Option<seq<(string, Bytes)>>)

  datatype Attempted = Attempted(world: World, caught: Caught)

  datatype Run = Run(exit: Exit, world: World)

  /** Downloads the images from position `i` on, appending `(name.jpg, bytes)` to `acc`;
      the first download that raises ends the loop. */
  function PrepareFrom(w: World, urls: seq<string>, i: nat, acc: seq<(string, Bytes)>,
                       download: (string, string) -> Fetch): (r: Prepared)
    ensures r.world.tables == w.tables && r.world.refunds == w.refunds && r.world.storage == w.storage
    ensures i <= |urls| && r.images.Some? ==> |r.images.value| == |acc| + |urls| - i
    decreases |urls| - i
  {
    if i >= |urls| then Prepared(w, Some(acc))
    else
      var name := ImageName(i);
      var w1 := Logged(w, DownloadImage(urls[i], name));
      match download(urls[i], name)
      case FetchRaises => Prepared(w1, None)
      case Fetched(buf) => PrepareFrom(w1, urls, i + 1, acc + [(name + ".jpg", buf)], download)
  }

  /** Storing the generated image, signing its URL and marking the session completed. */
  function Deliver(w: World, task: GenerationTask, bytes: Bytes, s: Script): (r: Attempted)
    ensures r.world.refunds == w.refunds
    ensures r.caught == NoException || r.caught == OtherException
    ensures r.caught == NoException <==> s.upload.Succeeds? && s.sign.Signed? && s.completedWrite.Succeeds?
  {
    var path := StoragePath(task);
    var w1 := Uploaded(w, path, bytes, s.upload);
    if s.upload.Raises? then Attempted(w1, OtherException)
    else
      var w2 := Logged(w1, CreateSignedUrl(BUCKET, path, SIGNED_URL_TTL));
      if s.sign.SignRaises? then Attempted(w2, OtherException)
      else
        var done := SessionUpdate(Completed, Some(s.sign.signedUrl.GetOr("")), None);
        var w3 := Updated(w2, SessionTable(task.channel), task.sessionId, done, s.completedWrite);
        Attempted(w3, if s.completedWrite.Raises? then OtherException else NoException)
  }

  /** The handler's main block. */
  function Pipeline(w: World, task: GenerationTask, s: Script): (r: Attempted)
    ensures r.world.refunds == w.refunds
    ensures r.caught != OtherException ==> s.processingWrite.Succeeds?
    ensures r.caught == NoException ==> s.upload.Succeeds? && s.sign.Signed? && s.completedWrite.Succeeds?
  {
    var w1 := Updated(w, SessionTable(task.channel), task.sessionId, StatusOnly(Processing), s.processingWrite);
    if s.processingWrite.Raises? then Attempted(w1, OtherException)
    else
      var p := PrepareFrom(w1, task.imageUrls, 0, [], s.download);
      if p.images.None? then Attempted(p.world, OtherException)
      else
        var w2 := Logged(p.world, GenerateImage(Filenames(p.images.value), task.prompt));
        match OpenAIClient.TryFrom(1, OpenAIClient.OPENAI_MAX_RETRIES, s.send).result
        case Err(e) => Attempted(w2, ImageFailure(e))
        case Ok(bytes) => Deliver(w2, task, bytes, s)
  }

  /** Refunding the owner's credit: only an owner id that is present and non-empty is
      refunded, and a refund that raises is swallowed. */
  function CreditRefunded(w: World, task: GenerationTask, o: Outcome): (r: World)
    ensures r.tables == w.tables && r.storage == w.storage
    ensures r.calls == w.calls + RefundCalls(task)
    ensures r.refunds == w.refunds + RefundsGiven(task, o)
  {
    var owner := OwnerId(task);
    if Truthy(owner) then Refunded(w, CreditParam(task.channel), owner.value, REFUND_AMOUNT, o) else w
  }

  /** Final failure: refund, then mark the session failed with `message`. */
  function MarkFailed(w: World, task: GenerationTask, message: string, s: Script): (r: Run)
    ensures !r.exit.RetryRaised?
    ensures r.world.storage == w.storage
    ensures r.world.refunds == w.refunds + RefundsGiven(task, s.refund)
  {
    var w1 := CreditRefunded(w, task, s.refund);
    var failed := SessionUpdate(Failed, None, Some(message));
    var w2 := Updated(w1, SessionTable(task.channel), task.sessionId, failed, s.failedWrite);
    Run(if s.failedWrite.Raises? then ErrorRaised else Returned, w2)
  }

  /** Rate limited with budget left: mark the session queued and ask for a re-delivery. */
  function Requeue(w: World, task: GenerationTask, s: Script): (r: Run)
    ensures r.world.refunds == w.refunds && r.world.storage == w.storage
    ensures r.exit == RetryRaised(RETRY_COUNTDOWN) || r.exit == ErrorRaised
  {
    var queued := SessionUpdate(Queued, None, Some(RATE_LIMITED_MESSAGE));
    var w1 := Updated(w, SessionTable(task.channel), task.sessionId, queued, s.queuedWrite);
    Run(if s.queuedWrite.Raises? then ErrorRaised else RetryRaised(RETRY_COUNTDOWN), w1)
  }

  /** The message a caught failure leaves on the session. */
  function FailureMessage(c: Caught): string {
    if c.ImageFailure? then c.error.message else INTERNAL_ERROR_MESSAGE
  }

  /** A caught failure that is re-delivered instead of failed. */
  predicate Requeues(c: Caught, retries: nat) {
    c.ImageFailure? && c.error.statusCode == Some(429) && retries < TASK_MAX_RETRIES
  }

  /** One delivery of the task `data`, the `retries`-th re-delivery. */
  function Handle(w: World, data: map<string, Json>, retries: nat, s: Script): (r: Run)
    ensures r.exit.RetryRaised? ==> r.exit.countdown == RETRY_COUNTDOWN && r.world.refunds == w.refunds
    ensures r.exit.RetryRaised? ==> retries < TASK_MAX_RETRIES
    ensures w.refunds <= r.world.refunds
  {
    match FromDict(data)
    case Err(_) => Run(ErrorRaised, w)
    case Ok(task) =>
      var t := Pipeline(w, task, s);
      if t.caught == NoException then Run(Returned, t.world)
      else if Requeues(t.caught, retries) then Requeue(t.world, task, s)
      else MarkFailed(t.world, task, FailureMessage(t.caught), s)
  }

  // ---------------------------------------------------------------------------------------
  // The handler over a Backend.

  method DownloadImages(b: Backend, urls: seq<string>, download: (string, string) -> Fetch)
    returns (images: Option<seq<(string, Bytes)>>)
    modifies b
    ensures Prepared(b.State(), images) == PrepareFrom(old(b.State()), urls, 0, [], download)
  {
    var buffers: seq<(string, Bytes)> := [];
    var i := 0;
    while i < |urls|
      invariant 0 <= i <= |urls|
      invariant PrepareFrom(old(b.State()), urls, 0, [], download) == PrepareFrom(b.State(), urls, i, buffers, download)
    {
      var name := ImageName(i);
      var buf := b.Download(urls[i], name, download(urls[i], name));
      if buf.None? {
        return None;
      }
      buffers := buffers + [(name + ".jpg", buf.value)];
      i := i + 1;
    }
    return Some(buffers);
  }

  method RunPipeline(b: Backend, task: GenerationTask, s: Script) returns (caught: Caught)
    modifies b
    ensures Attempted(b.State(), caught) == Pipeline(old(b.State()), task, s)
  {
    var table := SessionTable(task.channel);
    var raised := b.Update(table, task.sessionId, StatusOnly(Processing), s.processingWrite);
    if raised {
      return OtherException;
    }
    var images := DownloadImages(b, task.imageUrls, s.download);
    if images.None? {
      return OtherException;
    }
    var result := b.Generate(images.value, task.prompt, s.send);
    if result.Err? {
      return ImageFailure(result.error);
    }
    var path := StoragePath(task);
    raised := b.Upload(path, result.value, s.upload);
    if raised {
      return OtherException;
    }
    var signed := b.SignedUrl(path, SIGNED_URL_TTL, s.sign);
    if signed.None? {
      return OtherException;
    }
    var done := SessionUpdate(Completed, Some(signed.value.GetOr("")), None);
    raised := b.Update(table, task.sessionId, done, s.completedWrite);
    caught := if raised then OtherException else NoException;
  }

  method RefundCredit(b: Backend, task: GenerationTask, o: Outcome)
    modifies b
    ensures b.State() == CreditRefunded(old(b.State()), task, o)
  {
    var owner := OwnerId(task);
    if owner.Some? && owner.value != "" {
      var swallowed := b.RequestRefund(CreditParam(task.channel), owner.value, REFUND_AMOUNT, o);
    }
  }

  /** `process_generation(task_data)`, delivered for the `retries`-th time. */
  method ProcessGeneration(b: Backend, data: map<string, Json>, retries: nat, s: Script) returns (exit: Exit)
    modifies b
    ensures Run(exit, b.State()) == Handle(old(b.State()), data, retries, s)
  {
    var parsed := FromDict(data);
    if parsed.Err? {
      return ErrorRaised;
    }
    var task := parsed.value;
    var table := SessionTable(task.channel);
    var caught := RunPipeline(b, task, s);
    if caught == NoException {
      return Returned;
    }
    if caught.ImageFailure? && caught.error.statusCode == Some(429) && retries < TASK_MAX_RETRIES {
      var raised := b.Update(table, task.sessionId, SessionUpdate(Queued, None, Some(RATE_LIMITED_MESSAGE)), s.queuedWrite);
      return if raised then ErrorRaised else RetryRaised(RETRY_COUNTDOWN);
    }
    var message := if caught.ImageFailure? then caught.error.message else INTERNAL_ERROR_MESSAGE;
    RefundCredit(b, task, s.refund);
    var raised := b.Update(table, task.sessionId, SessionUpdate(Failed, None, Some(message)), s.failedWrite);
    exit := if raised then ErrorRaised else Returned;
  }

  // ---------------------------------------------------------------------------------------
  // Properties of the handler.

  lemma {:induction false} NatToStringInjective(m: nat, n: nat)
    requires NatToString(m) == NatToString(n)
    ensures m == n
    decreases m
  {
    var sm, sn := NatToString(m), NatToString(n);
    if m >= 10 && n >= 10 {
      assert sm[..|sm| - 1] == NatToString(m / 10);
      assert sn[..|sn| - 1] == NatToString(n / 10);
      NatToStringInjective(m / 10, n / 10);
      assert Digit(m % 10) == sm[|sm| - 1] == sn[|sn| - 1] == Digit(n % 10);
    }
  }

  /** Images at different positions get different names, so the request's files are
      told apart. */
  lemma ImageNamesDistinct(i: nat, j: nat)
    requires i != j
    ensures ImageName(i) != ImageName(j)
  {
    ImageNameForm(i);
    ImageNameForm(j);
    if i != 0 && j != 0 {
      var a, b := ImageName(i), ImageName(j);
      if a == b {
        assert a[6..] == NatToString(i) && b[6..] == NatToString(j);
        NatToStringInjective(i, j);
      }
    } else if i == 0 {
      assert ImageName(i)[0] == 'm' && ImageName(j)[0] == 'i';
    } else {
      assert ImageName(j)[0] == 'm' && ImageName(i)[0] == 'i';
    }
  }

  /** Results of the two channels are stored under different prefixes, so they never share a
      path; within a channel and owner, each session gets its own `.jpg` path. */
  lemma StoragePathsSeparate(t1: GenerationTask, t2: GenerationTask)
    ensures t1.channel != t2.channel ==> StoragePath(t1) != StoragePath(t2)
    ensures t1.channel == t2.channel && OwnerId(t1) == OwnerId(t2) ==>
              (StoragePath(t1) == StoragePath(t2) <==> t1.sessionId == t2.sessionId)
    ensures var p := StoragePath(t1); |p| > 4 && p[|p| - 4..] == ".jpg"
  {
    var p1, p2 := StoragePath(t1), StoragePath(t2);
    if t1.channel != t2.channel {
      assert p1[0] != p2[0];
    }
    if t1.channel == t2.channel && OwnerId(t1) == OwnerId(t2) && p1 == p2 {
      var prefix := if t1.channel == B2B then "stores/" + OwnerText(OwnerId(t1)) + "/generated/"
                    else "generated/" + OwnerText(OwnerId(t1)) + "/";
      assert p1 == prefix + t1.sessionId + ".jpg" && p2 == prefix + t2.sessionId + ".jpg";
      assert p1[|prefix|..|p1| - 4] == t1.sessionId;
      assert p2[|prefix|..|p2| - 4] == t2.sessionId;
    }
  }

  /** Downloading touches nothing but the call log, where it adds one download per image
      tried, in order, with the image's name. */
  lemma PrepareCalls(w: World, urls: seq<string>, i: nat, acc: seq<(string, Bytes)>,
                     download: (string, string) -> Fetch)
    requires i <= |urls|
    ensures var p := PrepareFrom(w, urls, i, acc, download);
            && p.world.tables == w.tables && p.world.refunds == w.refunds && p.world.storage == w.storage
            && Extends(w.calls, p.world.calls)
            && |p.world.calls| - |w.calls| <= |urls| - i
            && (p.images.Some? ==> |p.world.calls| - |w.calls| == |urls| - i)
            && (forall k :: |w.calls| <= k < |p.world.calls| ==>
                  p.world.calls[k] == DownloadImage(urls[i + k - |w.calls|], ImageName(i + k - |w.calls|)))
  {
    PrepareLog(w, urls, i, acc, download);
    var calls := PrepareFrom(w, urls, i, acc, download).world.calls;
    var n := |calls| - |w.calls|;
    var added := Downloads(urls, i, i + n);
    assert calls == w.calls + added;
    DownloadsAt(urls, i, i + n);
    assert calls[..|w.calls|] == w.calls;
    forall k | |w.calls| <= k < |calls|
      ensures calls[k] == DownloadImage(urls[i + k - |w.calls|], ImageName(i + k - |w.calls|))
    {
      assert calls[k] == added[k - |w.calls|];
    }
  }

  /** The downloads of images `i` up to `j`, in order. */
  function Downloads(urls: seq<string>, i: nat, j: nat): seq<Call>
    requires i <= j <= |urls|
    decreases j - i
  {
    if i == j then [] else [DownloadImage(urls[i], ImageName(i))] + Downloads(urls, i + 1, j)
  }

  lemma {:induction false} DownloadsAt(urls: seq<string>, i: nat, j: nat)
    requires i <= j <= |urls|
    ensures |Downloads(urls, i, j)| == j - i
    ensures forall k :: 0 <= k < j - i ==> Downloads(urls, i, j)[k] == DownloadImage(urls[i + k], ImageName(i + k))
    decreases j - i
  {
    if i < j {
      DownloadsAt(urls, i + 1, j);
      forall k | 0 <= k < j - i
        ensures Downloads(urls, i, j)[k] == DownloadImage(urls[i + k], ImageName(i + k))
      {
        if k > 0 {
          assert Downloads(urls, i, j)[k] == Downloads(urls, i + 1, j)[k - 1];
        }
      }
    }
  }

  /** One turn of the download loop: a raised download stops it with nothing, a fetched one
      goes on from the next image with the pair appended. */
  lemma PrepareStep(w: World, urls: seq<string>, i: nat, acc: seq<(string, Bytes)>,
                    download: (string, string) -> Fetch)
    requires i < |urls|
    ensures var name := ImageName(i);
            var w1 := Logged(w, DownloadImage(urls[i], name));
            PrepareFrom(w, urls, i, acc, download)
              == match download(urls[i], name)
                 case FetchRaises => Prepared(w1, None)
                 case Fetched(buf) => PrepareFrom(w1, urls, i + 1, acc + [(name + ".jpg", buf)], download)
  {
  }

  /** The download loop appends to the log the downloads of the images it tries: all of them
      when it yields images. */
  lemma {:induction false} PrepareLog(w: World, urls: seq<string>, i: nat, acc: seq<(string, Bytes)>,
                                      download: (string, string) -> Fetch)
    requires i <= |urls|
    ensures var p := PrepareFrom(w, urls, i, acc, download);
            var n := |p.world.calls| - |w.calls|;
            && 0 <= n <= |urls| - i
            && (p.images.Some? ==> n == |urls| - i)
            && p.world.calls == w.calls + Downloads(urls, i, i + n)
    decreases |urls| - i
  {
    if i < |urls| {
      var name := ImageName(i);
      var d := DownloadImage(urls[i], name);
      var w1 := Logged(w, d);
      PrepareStep(w, urls, i, acc, download);
      if download(urls[i], name).Fetched? {
        var acc1 := acc + [(name + ".jpg", download(urls[i], name).bytes)];
        PrepareLog(w1, urls, i + 1, acc1, download);
        var p := PrepareFrom(w1, urls, i + 1, acc1, download);
        assert PrepareFrom(w, urls, i, acc, download) == p;
        var n1 := |p.world.calls| - |w1.calls|;
        assert Downloads(urls, i, i + 1 + n1) == [d] + Downloads(urls, i + 1, i + 1 + n1);
        assert p.world.calls == (w.calls + [d]) + Downloads(urls, i + 1, i + 1 + n1);
      } else {
        assert PrepareFrom(w, urls, i, acc, download).world == w1;
        assert Downloads(urls, i, i + 1) == [d];
      }
    } else {
      assert Downloads(urls, i, i) == [];
    }
  }

  /** The download loop yields one `(name.jpg, bytes)` pair per image, in order, unless a
      download raises, which is the only way it yields nothing. */
  lemma PrepareImages(w: World, urls: seq<string>, i: nat, acc: seq<(string, Bytes)>,
                      download: (string, string) -> Fetch)
    requires i <= |urls|
    ensures var p := PrepareFrom(w, urls, i, acc, download);
            && (p.images.None? <==> exists k :: i <= k < |urls| && download(urls[k], ImageName(k)).FetchRaises?)
            && (p.images.Some? ==>
                  && |p.images.value| == |acc| + |urls| - i
                  && p.images.value[..|acc|] == acc
                  && forall k :: i <= k < |urls| ==>
                       download(urls[k], ImageName(k)).Fetched?
                       && p.images.value[|acc| + k - i] == (ImageName(k) + ".jpg", download(urls[k], ImageName(k)).bytes))
  {
    PrepareRaises(w, urls, i, acc, download);
    PrepareYields(w, urls, i, acc, download);
  }

  lemma {:induction false} PrepareRaises(w: World, urls: seq<string>, i: nat, acc: seq<(string, Bytes)>,
                                         download: (string, string) -> Fetch)
    requires i <= |urls|
    ensures PrepareFrom(w, urls, i, acc, download).images.None?
            <==> exists k :: i <= k < |urls| && download(urls[k], ImageName(k)).FetchRaises?
    decreases |urls| - i
  {
    if i < |urls| {
      var name := ImageName(i);
      PrepareStep(w, urls, i, acc, download);
      if download(urls[i], name).Fetched? {
        var acc1 := acc + [(name + ".jpg", download(urls[i], name).bytes)];
        var w1 := Logged(w, DownloadImage(urls[i], name));
        PrepareRaises(w1, urls, i + 1, acc1, download);
        assert PrepareFrom(w, urls, i, acc, download) == PrepareFrom(w1, urls, i + 1, acc1, download);
        if PrepareFrom(w, urls, i, acc, download).images.None? {
          var k :| i + 1 <= k < |urls| && download(urls[k], ImageName(k)).FetchRaises?;
        }
      } else {
        assert PrepareFrom(w, urls, i, acc, download).images.None?;
      }
    }
  }

  lemma {:induction false} PrepareYields(w: World, urls: seq<string>, i: nat, acc: seq<(string, Bytes)>,
                                         download: (string, string) -> Fetch)
    requires i <= |urls|
    ensures var p := PrepareFrom(w, urls, i, acc, download);
            p.images.Some? ==>
              && |p.images.value| == |acc| + |urls| - i
              && p.images.value[..|acc|] == acc
              && forall k :: i <= k < |urls| ==>
                   download(urls[k], ImageName(k)).Fetched?
                   && p.images.value[|acc| + k - i] == (ImageName(k) + ".jpg", download(urls[k], ImageName(k)).bytes)
    decreases |urls| - i
  {
    if i < |urls| {
      var name := ImageName(i);
      if download(urls[i], name).Fetched? {
        var acc1 := acc + [(name + ".jpg", download(urls[i], name).bytes)];
        var w1 := Logged(w, DownloadImage(urls[i], name));
        PrepareYields(w1, urls, i + 1, acc1, download);
        var p := PrepareFrom(w1, urls, i + 1, acc1, download);
        assert PrepareFrom(w, urls, i, acc, download) == p;
        if p.images.Some? {
          var im := p.images.value;
          assert im[..|acc|] == acc by {
            assert im[..|acc|] == im[..|acc1|][..|acc|];
          }
          forall k | i <= k < |urls|
            ensures download(urls[k], ImageName(k)).Fetched?
            ensures im[|acc| + k - i] == (ImageName(k) + ".jpg", download(urls[k], ImageName(k)).bytes)
          {
            if k == i {
              assert im[|acc|] == im[..|acc1|][|acc|] == acc1[|acc|];
            }
          }
        }
      }
    }
  }

  /** The main block reaches the generator: marking the session processing succeeded and
      every image downloaded. */
  predicate ReachesGenerator(task: GenerationTask, s: Script) {
    && s.processingWrite.Succeeds?
    && forall k :: 0 <= k < |task.imageUrls| ==> s.download(task.imageUrls[k], ImageName(k)).Fetched?
  }

  /** What the generator returns when the main block reaches it. */
  function Generated(s: Script): Result<Bytes, OpenAIClient.ImageError> {
    OpenAIClient.TryFrom(1, OpenAIClient.OPENAI_MAX_RETRIES, s.send).result
  }

  /** The main block ends without an exception exactly when every call in it succeeds; the
      image-error handler catches exactly the generator's errors, unchanged; every other
      failure is caught by the generic handler. */
  lemma PipelineOutcome(w: World, task: GenerationTask, s: Script)
    ensures var t := Pipeline(w, task, s);
            && (t.caught.ImageFailure? <==> ReachesGenerator(task, s) && Generated(s).Err?)
            && (t.caught.ImageFailure? ==> t.caught.error == Generated(s).error)
            && (t.caught == NoException <==>
                  && ReachesGenerator(task, s) && Generated(s).Ok?
                  && s.upload.Succeeds? && s.sign.Signed? && s.completedWrite.Succeeds?)
  {
    if s.processingWrite.Succeeds? {
      var w1 := Updated(w, SessionTable(task.channel), task.sessionId, StatusOnly(Processing), s.processingWrite);
      PrepareImages(w1, task.imageUrls, 0, [], s.download);
    }
  }

  lemma UpdatedOnlyRow(w: World, table: string, id: string, u: SessionUpdate, o: Outcome)
    ensures OnlyRowChanged(w.tables, Updated(w, table, id, u, o).tables, table, id)
  {
  }

  lemma OnlyRowChangedTrans(a: map<string, Table>, b: map<string, Table>, c: map<string, Table>,
                            table: string, id: string)
    requires OnlyRowChanged(a, b, table, id) && OnlyRowChanged(b, c, table, id)
    ensures OnlyRowChanged(a, c, table, id)
  {
  }


  lemma DeliverFrame(w: World, task: GenerationTask, bytes: Bytes, s: Script)
    ensures var d := Deliver(w, task, bytes, s);
            && d.world.refunds == w.refunds
            && Extends(w.calls, d.world.calls)
            && OnlyRowChanged(w.tables, d.world.tables, SessionTable(task.channel), task.sessionId)
            && (d.world.storage == w.storage || d.world.storage == w.storage[StoragePath(task) := bytes])
  {
    var w1 := Uploaded(w, StoragePath(task), bytes, s.upload);
    var w2 := Logged(w1, CreateSignedUrl(BUCKET, StoragePath(task), SIGNED_URL_TTL));
    ExtendsTrans(w.calls, w1.calls, w2.calls);
    if s.upload.Succeeds? && s.sign.Signed? {
      var done := SessionUpdate(Completed, Some(s.sign.signedUrl.GetOr("")), None);
      var w3 := Updated(w2, SessionTable(task.channel), task.sessionId, done, s.completedWrite);
      UpdatedOnlyRow(w2, SessionTable(task.channel), task.sessionId, done, s.completedWrite);
      ExtendsTrans(w.calls, w2.calls, w3.calls);
    }
  }

  /** The main block gives no refund, writes only its own session row and stores at most
      the generated image, at the task's path. */
  lemma PipelineFrame(w: World, task: GenerationTask, s: Script)
    ensures var t := Pipeline(w, task, s);
            && t.world.refunds == w.refunds
            && OnlyRowChanged(w.tables, t.world.tables, SessionTable(task.channel), task.sessionId)
            && (|| t.world.storage == w.storage
                || (Generated(s).Ok? && t.world.storage == w.storage[StoragePath(task) := Generated(s).value]))
  {
    var table := SessionTable(task.channel);
    var w1 := Updated(w, table, task.sessionId, StatusOnly(Processing), s.processingWrite);
    UpdatedOnlyRow(w, table, task.sessionId, StatusOnly(Processing), s.processingWrite);
    if s.processingWrite.Succeeds? {
      PrepareCalls(w1, task.imageUrls, 0, [], s.download);
      var p := PrepareFrom(w1, task.imageUrls, 0, [], s.download);
      if p.images.Some? && Generated(s).Ok? {
        var w2 := Logged(p.world, GenerateImage(Filenames(p.images.value), task.prompt));
        DeliverFrame(w2, task, Generated(s).value, s);
        OnlyRowChangedTrans(w.tables, w2.tables, Pipeline(w, task, s).world.tables, table, task.sessionId);
      }
    }
  }

  /** The main block only appends to the call log, and its first call marks the session
      processing, before any image is downloaded. */
  lemma PipelineCalls(w: World, task: GenerationTask, s: Script)
    ensures var t := Pipeline(w, task, s);
            && Extends(w.calls, t.world.calls)
            && |t.world.calls| > |w.calls|
            && t.world.calls[|w.calls|] == UpdateSession(SessionTable(task.channel), task.sessionId, StatusOnly(Processing))
  {
    var table := SessionTable(task.channel);
    var w1 := Updated(w, table, task.sessionId, StatusOnly(Processing), s.processingWrite);
    var t := Pipeline(w, task, s);
    if s.processingWrite.Succeeds? {
      PrepareCalls(w1, task.imageUrls, 0, [], s.download);
      var p := PrepareFrom(w1, task.imageUrls, 0, [], s.download);
      if p.images.Some? {
        var w2 := Logged(p.world, GenerateImage(Filenames(p.images.value), task.prompt));
        ExtendsTrans(w1.calls, p.world.calls, w2.calls);
        if Generated(s).Ok? {
          DeliverFrame(w2, task, Generated(s).value, s);
          ExtendsTrans(w1.calls, w2.calls, t.world.calls);
        }
      }
      ExtendsTrans(w.calls, w1.calls, t.world.calls);
      assert t.world.calls[|w.calls|] == t.world.calls[..|w1.calls|][|w.calls|];
    }
  }

  /** The refund calls a terminal failure makes: one, when the owner id is present and
      non-empty. */
  function RefundCalls(task: GenerationTask): seq<Call> {
    if Truthy(OwnerId(task))
    then [RefundCredits(Refund(CreditParam(task.channel), OwnerId(task).value, REFUND_AMOUNT))]
    else []
  }

  /** The refunds a terminal failure gives: the call's, when it is made and does not raise. */
  function RefundsGiven(task: GenerationTask, o: Outcome): seq<Refund> {
    if Truthy(OwnerId(task)) && o.Succeeds?
    then [Refund(CreditParam(task.channel), OwnerId(task).value, REFUND_AMOUNT)]
    else []
  }

  /** A payload that does not build a task raises before any call is made. */
  lemma InvalidPayloadRaises(w: World, data: map<string, Json>, retries: nat, s: Script)
    requires FromDict(data).Err?
    ensures Handle(w, data, retries, s) == Run(ErrorRaised, w)
  {
  }

  /** Whatever happens, the handler only appends to the call log, and its first call marks
      the session processing. */
  lemma ProcessingMarkedFirst(w: World, data: map<string, Json>, retries: nat, s: Script)
    requires FromDict(data).Ok?
    ensures var r := Handle(w, data, retries, s);
            var task := FromDict(data).value;
            && Extends(w.calls, r.world.calls)
            && |r.world.calls| > |w.calls|
            && r.world.calls[|w.calls|] == UpdateSession(SessionTable(task.channel), task.sessionId, StatusOnly(Processing))
  {
    var task := FromDict(data).value;
    var t := Pipeline(w, task, s);
    var r := Handle(w, data, retries, s);
    PipelineCalls(w, task, s);
    HandleAfterPipeline(w, data, task, retries, s);
    ExtendsTrans(w.calls, t.world.calls, r.world.calls);
    assert r.world.calls[|w.calls|] == r.world.calls[..|t.world.calls|][|w.calls|];
  }

  /** What the handler does after the main block only appends calls. */
  lemma HandleAfterPipeline(w: World, data: map<string, Json>, task: GenerationTask, retries: nat, s: Script)
    requires FromDict(data) == Ok(task)
    ensures Extends(Pipeline(w, task, s).world.calls, Handle(w, data, retries, s).world.calls)
  {
    var t := Pipeline(w, task, s);
    if t.caught != NoException {
      if Requeues(t.caught, retries) {
        assert Requeue(t.world, task, s).world.calls[..|t.world.calls|] == t.world.calls;
      } else {
        var w1 := CreditRefunded(t.world, task, s.refund);
        assert Extends(t.world.calls, w1.calls);
        var r := MarkFailed(t.world, task, FailureMessage(t.caught), s);
        assert Extends(w1.calls, r.world.calls);
        ExtendsTrans(t.world.calls, w1.calls, r.world.calls);
      }
    }
  }

  /** A run whose main block raises nothing returns, gives no refund, stores the generated
      image at the task's path and leaves the session completed with the signed URL (empty
      when the response has none), touching no other row. */
  lemma CompletedRun(w: World, data: map<string, Json>, task: GenerationTask, retries: nat, s: Script)
    requires FromDict(data) == Ok(task) && Pipeline(w, task, s).caught == NoException
    ensures var r := Handle(w, data, retries, s);
            var table := SessionTable(task.channel);
            && r.exit == Returned
            && r.world.refunds == w.refunds
            && Generated(s).Ok? && s.sign.Signed?
            && r.world.storage == w.storage[StoragePath(task) := Generated(s).value]
            && OnlyRowChanged(w.tables, r.world.tables, table, task.sessionId)
            && (table in w.tables && task.sessionId in w.tables[table] ==>
                  r.world.tables[table][task.sessionId]
                  == w.tables[table][task.sessionId].(status := Completed,
                                                       resultImageUrl := Some(s.sign.signedUrl.GetOr(""))))
  {
    PipelineOutcome(w, task, s);
    PipelineFrame(w, task, s);
    var table := SessionTable(task.channel);
    var w1 := Updated(w, table, task.sessionId, StatusOnly(Processing), s.processingWrite);
    PrepareCalls(w1, task.imageUrls, 0, [], s.download);
    PrepareImages(w1, task.imageUrls, 0, [], s.download);
  }

  /** A run is re-delivered exactly when the generator fails with status 429 on the first
      delivery and the session can be marked queued; then no credit is refunded and the
      session is left queued with the rate-limit message. */
  lemma RateLimitRequeue(w: World, data: map<string, Json>, task: GenerationTask, retries: nat, s: Script)
    requires FromDict(data) == Ok(task)
    ensures var r := Handle(w, data, retries, s);
            && (r.exit.RetryRaised? <==>
                  && ReachesGenerator(task, s) && Generated(s).Err?
                  && Generated(s).error.statusCode == Some(429)
                  && retries < TASK_MAX_RETRIES && s.queuedWrite.Succeeds?)
    ensures var r := Handle(w, data, retries, s);
            var table := SessionTable(task.channel);
            r.exit.RetryRaised? ==>
              && r.exit.countdown == RETRY_COUNTDOWN
              && r.world.refunds == w.refunds
              && r.world.calls[|r.world.calls| - 1]
                 == UpdateSession(table, task.sessionId, SessionUpdate(Queued, None, Some(RATE_LIMITED_MESSAGE)))
              && OnlyRowChanged(w.tables, r.world.tables, table, task.sessionId)
              && (table in w.tables && task.sessionId in w.tables[table] ==>
                    && r.world.tables[table][task.sessionId].status == Queued
                    && r.world.tables[table][task.sessionId].errorMessage == Some(RATE_LIMITED_MESSAGE))
  {
    PipelineOutcome(w, task, s);
    PipelineFrame(w, task, s);
    var t := Pipeline(w, task, s);
    var queued := SessionUpdate(Queued, None, Some(RATE_LIMITED_MESSAGE));
    UpdatedOnlyRow(t.world, SessionTable(task.channel), task.sessionId, queued, s.queuedWrite);
    OnlyRowChangedTrans(w.tables, t.world.tables, Updated(t.world, SessionTable(task.channel), task.sessionId, queued, s.queuedWrite).tables,
                        SessionTable(task.channel), task.sessionId);
  }

  /** The final-failure handler refunds, then writes the failed status, and changes
      nothing else. */
  lemma MarkFailedEffects(w: World, task: GenerationTask, message: string, s: Script)
    ensures var r := MarkFailed(w, task, message, s);
            var table := SessionTable(task.channel);
            && r.exit == (if s.failedWrite.Raises? then ErrorRaised else Returned)
            && r.world.calls == w.calls + RefundCalls(task)
                                + [UpdateSession(table, task.sessionId, SessionUpdate(Failed, None, Some(message)))]
            && r.world.refunds == w.refunds + RefundsGiven(task, s.refund)
            && r.world.storage == w.storage
            && OnlyRowChanged(w.tables, r.world.tables, table, task.sessionId)
            && (s.failedWrite.Succeeds? && table in w.tables && task.sessionId in w.tables[table] ==>
                  && r.world.tables[table][task.sessionId].status == Failed
                  && r.world.tables[table][task.sessionId].errorMessage == Some(message))
  {
    var table := SessionTable(task.channel);
    var w1 := CreditRefunded(w, task, s.refund);
    var failed := SessionUpdate(Failed, None, Some(message));
    UpdatedOnlyRow(w1, table, task.sessionId, failed, s.failedWrite);
  }

  /** A run that is neither completed nor re-delivered refunds the owner's credit once (when
      the owner id is present and non-empty), then marks the session failed with the
      generator's message, or the internal-error message for any other failure. */
  lemma TerminalFailure(w: World, data: map<string, Json>, task: GenerationTask, retries: nat, s: Script)
    requires FromDict(data) == Ok(task)
    requires Pipeline(w, task, s).caught != NoException && !Requeues(Pipeline(w, task, s).caught, retries)
    ensures var r := Handle(w, data, retries, s);
            var t := Pipeline(w, task, s);
            var table := SessionTable(task.channel);
            var message := FailureMessage(t.caught);
            && message == (if ReachesGenerator(task, s) && Generated(s).Err? then Generated(s).error.message
                           else INTERNAL_ERROR_MESSAGE)
            && r.exit == (if s.failedWrite.Raises? then ErrorRaised else Returned)
            && r.world.calls == t.world.calls + RefundCalls(task)
                                + [UpdateSession(table, task.sessionId, SessionUpdate(Failed, None, Some(message)))]
            && r.world.refunds == w.refunds + RefundsGiven(task, s.refund)
            && OnlyRowChanged(w.tables, r.world.tables, table, task.sessionId)
            && (s.failedWrite.Succeeds? && table in w.tables && task.sessionId in w.tables[table] ==>
                  && r.world.tables[table][task.sessionId].status == Failed
                  && r.world.tables[table][task.sessionId].errorMessage == Some(message))
  {
    PipelineOutcome(w, task, s);
    PipelineFrame(w, task, s);
    var t := Pipeline(w, task, s);
    var r := MarkFailed(t.world, task, FailureMessage(t.caught), s);
    assert Handle(w, data, retries, s) == r;
    MarkFailedEffects(t.world, task, FailureMessage(t.caught), s);
    OnlyRowChangedTrans(w.tables, t.world.tables, r.world.tables, SessionTable(task.channel), task.sessionId);
  }

  /** A session flagged by the moderation filter ends failed with the fixed moderation
      message and a refund: moderation errors carry status 400 and are never re-delivered. */
  lemma ModeratedSessionFails(w: World, data: map<string, Json>, task: GenerationTask, retries: nat, s: Script)
    requires FromDict(data) == Ok(task)
    requires ReachesGenerator(task, s) && Generated(s).Err? && Generated(s).error.isModerationError
    ensures var r := Handle(w, data, retries, s);
            var table := SessionTable(task.channel);
            && !r.exit.RetryRaised?
            && r.exit == (if s.failedWrite.Raises? then ErrorRaised else Returned)
            && r.world.refunds == w.refunds + RefundsGiven(task, s.refund)
            && OnlyRowChanged(w.tables, r.world.tables, table, task.sessionId)
            && (s.failedWrite.Succeeds? && table in w.tables && task.sessionId in w.tables[table] ==>
                  && r.world.tables[table][task.sessionId].status == Failed
                  && r.world.tables[table][task.sessionId].errorMessage == Some(OpenAIClient.MODERATION_ERROR_MESSAGE))
  {
    OpenAIClient.ModerationFlag(1, OpenAIClient.OPENAI_MAX_RETRIES, s.send);
    PipelineOutcome(w, task, s);
    TerminalFailure(w, data, task, retries, s);
  }

  /** Every run refunds at most one credit, to the task's owner, and only when it neither
      completes nor is re-delivered; earlier refunds are kept. */
  lemma AtMostOneRefund(w: World, data: map<string, Json>, retries: nat, s: Script)
    ensures var r := Handle(w, data, retries, s);
            && |w.refunds| <= |r.world.refunds| <= |w.refunds| + 1
            && r.world.refunds[..|w.refunds|] == w.refunds
    ensures var r := Handle(w, data, retries, s);
            |r.world.refunds| > |w.refunds| ==>
              && FromDict(data).Ok?
              && var task := FromDict(data).value;
                 && Truthy(OwnerId(task))
                 && r.world.refunds[|w.refunds|] == Refund(CreditParam(task.channel), OwnerId(task).value, REFUND_AMOUNT)
                 && Pipeline(w, task, s).caught != NoException
                 && !r.exit.RetryRaised?
  {
    if FromDict(data).Ok? {
      var task := FromDict(data).value;
      var t := Pipeline(w, task, s);
      PipelineFrame(w, task, s);
      if t.caught != NoException && !Requeues(t.caught, retries) {
        TerminalFailure(w, data, task, retries, s);
      }
    }
  }

  /** No status check precedes the work: a session already marked failed is still processed,
      and ends completed when every call succeeds. */
  lemma FailedSessionIsReprocessed(w: World, data: map<string, Json>, task: GenerationTask, retries: nat, s: Script)
    requires FromDict(data) == Ok(task)
    requires SessionTable(task.channel) in w.tables && task.sessionId in w.tables[SessionTable(task.channel)]
    requires w.tables[SessionTable(task.channel)][task.sessionId].status == Failed
    requires ReachesGenerator(task, s) && Generated(s).Ok?
    requires s.upload.Succeeds? && s.sign.Signed? && s.completedWrite.Succeeds?
    ensures var r := Handle(w, data, retries, s);
            && r.exit == Returned
            && SessionTable(task.channel) in r.world.tables
            && task.sessionId in r.world.tables[SessionTable(task.channel)]
            && r.world.tables[SessionTable(task.channel)][task.sessionId].status == Completed
  {
    PipelineOutcome(w, task, s);
    CompletedRun(w, data, task, retries, s);
  }
}
