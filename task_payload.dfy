/** The queue payload: a JSON object whose fields build a `GenerationTask`, the
    validated unit of work, and the dump the consumer hands to the task handler. */
module TaskPayload {
  import opened Prelude

  /** A decoded JSON value. Numbers are integers only; fractional numbers are not modelled. */
  datatype Json =
    | JNull
    | JBool(b: bool)
    | JInt(i: int)
    | JStr(s: string)
    | JArr(items: seq<Json>)
    | JObj(fields: map<string, Json>)

  /** The business channel; it selects the owner field, the session table and the storage
      namespace. */
  datatype Channel = B2B | B2C

  function ChannelName(c: Channel): string {
    match c
    case B2B => "b2b"
    case B2C => "b2c"
  }

  datatype GenerationTask = GenerationTask(
    taskId: string,
    channel: Channel,
    storeId: Option<string>,
    userId: Option<string>,
    sessionId: string,
    imageUrls: seq<string>,
    prompt: string,
    requestId: string,
    version: int,
    createdAt: string)

  /** Construction failed; `fields` names every field whose value was missing or unusable,
      as the validation error lists every failing field. */
  datatype ValidationError = ValidationError(fields: set<string>)

  /** The fields without a default. */
  const REQUIRED_FIELDS: set<string> :=
    {"task_id", "channel", "session_id", "image_urls", "prompt", "request_id", "created_at"}

  /** Every field the class declares; any other key of the payload is ignored. */
  const DECLARED_FIELDS: set<string> := REQUIRED_FIELDS + {"store_id", "user_id", "version"}

  const DEFAULT_VERSION := 1

  // Field decoders: None means the field fails validation.

  function StrField(data: map<string, Json>, key: string): Option<string> {
    if key in data && data[key].JStr? then Some(data[key].s) else None
  }

  /** A `str | None = None` field: absent or null is None, a string is kept. */
  function OptStrField(data: map<string, Json>, key: string): Option<Option<string>> {
    if key !in data || data[key] == JNull then Some(None)
    else if data[key].JStr? then Some(Some(data[key].s))
    else None
  }

  /** The literal `'b2b' | 'b2c'`. */
  function ChannelField(data: map<string, Json>): Option<Channel> {
    if "channel" !in data then None
    else if data["channel"] == JStr("b2b") then Some(B2B)
    else if data["channel"] == JStr("b2c") then Some(B2C)
    else None
  }

  /** A `list[str]`: every item must be a string. */
  function StrList(items: seq<Json>): Option<seq<string>> {
    if items == [] then Some([])
    else
      match StrList(items[1..])
      case None => None
      case Some(rest) => if items[0].JStr? then Some([items[0].s] + rest) else None
  }

  function UrlsField(data: map<string, Json>): Option<seq<string>> {
    if "image_urls" in data && data["image_urls"].JArr? then StrList(data["image_urls"].items) else None
  }

  /** `version: int = 1`. */
  function VersionField(data: map<string, Json>): Option<int> {
    if "version" !in data then Some(DEFAULT_VERSION)
    else if data["version"].JInt? then Some(data["version"].i)
    else None
  }

  function Invalid<T>(key: string, v: Option<T>): (r: set<string>)
    ensures r <= {key} && (key in r <==> v.None?)
  {
    if v.None? then {key} else {}
  }

  /** The fields a validation error lists, given what each field decoder yielded: some field
      is listed exactly when some decoder failed, and only declared fields are. */
  function Failures(taskId: Option<string>, channel: Option<Channel>, storeId: Option<Option<string>>,
                    userId: Option<Option<string>>, sessionId: Option<string>, urls: Option<seq<string>>,
                    prompt: Option<string>, requestId: Option<string>, version: Option<int>,
                    createdAt: Option<string>): (r: set<string>)
    ensures r <= DECLARED_FIELDS
    ensures r == {} <==>
              && taskId.Some? && channel.Some? && storeId.Some? && userId.Some? && sessionId.Some?
              && urls.Some? && prompt.Some? && requestId.Some? && version.Some? && createdAt.Some?
  {
    Invalid("task_id", taskId) + Invalid("channel", channel) + Invalid("store_id", storeId)
    + Invalid("user_id", userId) + Invalid("session_id", sessionId) + Invalid("image_urls", urls)
    + Invalid("prompt", prompt) + Invalid("request_id", requestId) + Invalid("version", version)
    + Invalid("created_at", createdAt)
  }

  /** `GenerationTask(**data)`: builds the task when every field validates, otherwise
      reports every failing field. */
  function FromDict(data: map<string, Json>): (r: Result<GenerationTask, ValidationError>)
    ensures r.Ok? ==> REQUIRED_FIELDS <= data.Keys
    ensures r.Ok? ==> data["session_id"] == JStr(r.value.sessionId)
                      && data["channel"] == JStr(ChannelName(r.value.channel))
    ensures r.Err? ==> r.error.fields != {} && r.error.fields <= DECLARED_FIELDS
  {
    var taskId := StrField(data, "task_id");
    var channel := ChannelField(data);
    var storeId := OptStrField(data, "store_id");
    var userId := OptStrField(data, "user_id");
    var sessionId := StrField(data, "session_id");
    var urls := UrlsField(data);
    var prompt := StrField(data, "prompt");
    var requestId := StrField(data, "request_id");
    var version := VersionField(data);
    var createdAt := StrField(data, "created_at");
    if taskId.Some? && channel.Some? && storeId.Some? && userId.Some? && sessionId.Some?
       && urls.Some? && prompt.Some? && requestId.Some? && version.Some? && createdAt.Some?
    then
      Ok(GenerationTask(taskId.value, channel.value, storeId.value, userId.value, sessionId.value,
                        urls.value, prompt.value, requestId.value, version.value, createdAt.value))
    else
      Err(ValidationError(Failures(taskId, channel, storeId, userId, sessionId, urls, prompt, requestId,
                                   version, createdAt)))
  }

  function OptStrJson(v: Option<string>): Json {
    match v
    case None => JNull
    case Some(s) => JStr(s)
  }

  function StrsJson(ss: seq<string>): (r: seq<Json>)
    ensures |r| == |ss|
  {
    if ss == [] then [] else [JStr(ss[0])] + StrsJson(ss[1..])
  }

  /** `task.model_dump()`: every declared field, unset optionals as null. */
  function Dump(t: GenerationTask): (d: map<string, Json>)
    ensures d.Keys == DECLARED_FIELDS
    ensures d["session_id"] == JStr(t.sessionId) && d["channel"] == JStr(ChannelName(t.channel))
  {
    map[
      "task_id" := JStr(t.taskId),
      "channel" := JStr(ChannelName(t.channel)),
      "store_id" := OptStrJson(t.storeId),
      "user_id" := OptStrJson(t.userId),
      "session_id" := JStr(t.sessionId),
      "image_urls" := JArr(StrsJson(t.imageUrls)),
      "prompt" := JStr(t.prompt),
      "request_id" := JStr(t.requestId),
      "version" := JInt(t.version),
      "created_at" := JStr(t.createdAt)]
  }

  lemma {:induction false} StrListOfStrings(ss: seq<string>)
    ensures StrList(StrsJson(ss)) == Some(ss)
  {
    if ss != [] {
      var js := StrsJson(ss);
      assert js[1..] == StrsJson(ss[1..]);
      StrListOfStrings(ss[1..]);
      assert [ss[0]] + ss[1..] == ss;
    }
  }

  /** Dumping a task and constructing a task from the dump gives back the same task. */
  lemma RoundTrip(t: GenerationTask)
    ensures FromDict(Dump(t)) == Ok(t)
  {
    var d := Dump(t);
    StrListOfStrings(t.imageUrls);
    assert ChannelField(d) == Some(t.channel) by {
      match t.channel
      case B2B =>
      case B2C =>
    }
    assert OptStrField(d, "store_id") == Some(t.storeId) by {
      match t.storeId
      case None =>
      case Some(_) =>
    }
    assert OptStrField(d, "user_id") == Some(t.userId) by {
      match t.userId
      case None =>
      case Some(_) =>
    }
    assert UrlsField(d) == Some(t.imageUrls);
    Accepted(d, t);
  }

  /** A payload on which every field decoder yields `t`'s field builds `t`. */
  lemma Accepted(data: map<string, Json>, t: GenerationTask)
    requires StrField(data, "task_id") == Some(t.taskId) && ChannelField(data) == Some(t.channel)
    requires OptStrField(data, "store_id") == Some(t.storeId) && OptStrField(data, "user_id") == Some(t.userId)
    requires StrField(data, "session_id") == Some(t.sessionId) && UrlsField(data) == Some(t.imageUrls)
    requires StrField(data, "prompt") == Some(t.prompt) && StrField(data, "request_id") == Some(t.requestId)
    requires VersionField(data) == Some(t.version) && StrField(data, "created_at") == Some(t.createdAt)
    ensures FromDict(data) == Ok(t)
  {
  }

  /** A payload without one of the fields that have no default is rejected, naming that field. */
  lemma MissingRequiredFieldRejected(data: map<string, Json>, key: string)
    requires key in REQUIRED_FIELDS && key !in data
    ensures FromDict(data).Err? && key in FromDict(data).error.fields
  {
  }

  /** Only 'b2b' and 'b2c' are channels: an accepted payload carries one of them, and any
      other channel value is rejected. */
  lemma ChannelIsLiteral(data: map<string, Json>)
    ensures FromDict(data).Ok? ==>
              data["channel"] == JStr(ChannelName(FromDict(data).value.channel))
    ensures ("channel" in data && data["channel"] != JStr("b2b") && data["channel"] != JStr("b2c"))
              ==> FromDict(data).Err? && "channel" in FromDict(data).error.fields
  {
  }

  /** `store_id` and `user_id` default to None and `version` to 1. */
  lemma Defaults(data: map<string, Json>)
    requires FromDict(data).Ok?
    ensures "store_id" !in data ==> FromDict(data).value.storeId == None
    ensures "user_id" !in data ==> FromDict(data).value.userId == None
    ensures "version" !in data ==> FromDict(data).value.version == 1
  {
  }

  /** The decoders of a field depend only on that field. */
  lemma FieldAgrees(d1: map<string, Json>, d2: map<string, Json>, k: string)
    requires k in d1 <==> k in d2
    requires k in d1 ==> d1[k] == d2[k]
    ensures StrField(d1, k) == StrField(d2, k) && OptStrField(d1, k) == OptStrField(d2, k)
    ensures k == "channel" ==> ChannelField(d1) == ChannelField(d2)
    ensures k == "image_urls" ==> UrlsField(d1) == UrlsField(d2)
    ensures k == "version" ==> VersionField(d1) == VersionField(d2)
  {
  }

  /** Keys the class does not declare do not change the outcome. */
  lemma ExtraFieldsIgnored(data: map<string, Json>, key: string, v: Json)
    requires key !in DECLARED_FIELDS
    ensures FromDict(data[key := v]) == FromDict(data)
  {
    var d := data[key := v];
    FieldAgrees(d, data, "task_id");
    FieldAgrees(d, data, "channel");
    FieldAgrees(d, data, "store_id");
    FieldAgrees(d, data, "user_id");
    FieldAgrees(d, data, "session_id");
    FieldAgrees(d, data, "image_urls");
    FieldAgrees(d, data, "prompt");
    FieldAgrees(d, data, "request_id");
    FieldAgrees(d, data, "version");
    FieldAgrees(d, data, "created_at");
  }

  /** The producer's contract: the channel's owner id is present and non-empty, and there is
      at least one image. The class itself does not check it. */
  predicate ProducerContract(t: GenerationTask) {
    && (t.channel == B2C ==> Truthy(t.userId))
    && (t.channel == B2B ==> Truthy(t.storeId))
    && |t.imageUrls| > 0
  }

  /** A b2c payload whose `user_id` is null and whose image list is empty builds a task that
      breaks the producer's contract: construction does not enforce it. */
  lemma ProducerContractNotEnforced()
    ensures exists data :: FromDict(data).Ok? && !ProducerContract(FromDict(data).value)
  {
    var t := GenerationTask("abc-222", B2C, None, None, "sess-5", [], "test", "req_mno",
                            DEFAULT_VERSION, "2026-02-09T14:30:00Z");
    RoundTrip(t);
    var data := Dump(t);
    assert FromDict(data) == Ok(t);
  }
}
