/** The queue consumer: it pops raw payloads from the generation queue, decodes each as JSON,
    builds a `GenerationTask` from it and hands the task's dump to the task queue. A payload
    that does not decode or does not validate is logged and dropped; any other failure is
    logged and the loop goes on; only an interrupt ends it.

    The queue is a script of what each pop meets, and the JSON decoder is a parameter. The
    loop runs forever; a finite script is the part of the run that is observed, so the end
    of the script ends the observation, not the loop. */
module Consumer {
  import opened Prelude
  import opened TaskPayload

  const QUEUE_KEY: string := "wearon:tasks:generation"
  /** Seconds one blocking pop waits before it returns nothing. */
  const BRPOP_TIMEOUT: int := 5
  /** Characters of an undecodable payload kept in its log event. */
  const LOGGED_PAYLOAD_CHARS: nat := 200
  /** The correlation id logged for a payload without `request_id`. */
  const UNKNOWN_REQUEST: Json := JStr("unknown")

  /** What one turn of the loop meets: the pop times out, returns a payload (together with
      what handing its task to the task queue does), is interrupted, or raises. */
  datatype Pop = Timeout | Raw(payload: string, delivery: Outcome) | Interrupt | Boom

  datatype Event =
    | ConsumerStarted(queue: string)
    | InvalidJson(payload: string)
    | InvalidTaskPayload(requestId: Json, error: ValidationError)
    | TaskReceived(taskRequestId: string, sessionId: string, channel: Channel)
    | ConsumerError
    | ConsumerShutdown

  /** What the consumer has done so far: the task dumps handed to the task queue, in order,
      the log events, and whether it has stopped. */
  datatype Trace = Trace(dispatched: seq<map<string, Json>>, events: seq<Event>, stopped: bool)

  /** What one turn does: the dump it hands over, if any, and its log events. */
  datatype Turn = Turn(dispatch: Option<map<string, Json>>, events: seq<Event>)

  /** The first characters of a payload, as the invalid-JSON event logs them. */
  function Truncated(payload: string): string {
    if |payload| <= LOGGED_PAYLOAD_CHARS then payload else payload[..LOGGED_PAYLOAD_CHARS]
  }

  /** `data.get('request_id', 'unknown')`. */
  function RequestIdOf(data: map<string, Json>): Json {
    if "request_id" in data then data["request_id"] else UNKNOWN_REQUEST
  }

  /** One popped payload: decode it, build the task, log it and hand over its dump. A decoded
      value that is not an object fails to build a task and then has no `get`, so the
      failure reaches the loop's general handler. */
  function Receive(payload: string, delivery: Outcome, parse: string -> Option<Json>): (r: Turn)
    ensures |r.events| >= 1
    ensures r.dispatch.Some? ==>
              && delivery.Succeeds? && parse(payload).Some? && parse(payload).value.JObj?
              && FromDict(parse(payload).value.fields).Ok?
              && r.dispatch.value == Dump(FromDict(parse(payload).value.fields).value)
  {
    match parse(payload)
    case None => Turn(None, [InvalidJson(Truncated(payload))])
    case Some(data) =>
      if !data.JObj? then Turn(None, [ConsumerError])
      else
        match FromDict(data.fields)
        case Err(e) => Turn(None, [InvalidTaskPayload(RequestIdOf(data.fields), e)])
        case Ok(task) =>
          var received := TaskReceived(task.requestId, task.sessionId, task.channel);
          if delivery.Raises? then Turn(None, [received, ConsumerError])
          else Turn(Some(Dump(task)), [received])
  }

  /** One turn other than an interrupt. */
  function TurnOf(p: Pop, parse: string -> Option<Json>): (r: Turn)
    requires !p.Interrupt?
    ensures r.dispatch.Some? ==> p.Raw?
    ensures !p.Timeout? ==> |r.events| >= 1
    ensures ConsumerShutdown !in r.events
  {
    match p
    case Timeout => Turn(None, [])
    case Boom => Turn(None, [ConsumerError])
    case Raw(payload, delivery) => Receive(payload, delivery, parse)
  }

  function Then(tr: Trace, t: Turn): Trace {
    Trace(tr.dispatched + (if t.dispatch.Some? then [t.dispatch.value] else []), tr.events + t.events, tr.stopped)
  }

  /** The loop from the `i`-th pop on, after `acc`: an interrupt logs the shutdown and ends it. */
  function ConsumeFrom(pops: seq<Pop>, i: nat, acc: Trace, parse: string -> Option<Json>): (r: Trace)
    requires i <= |pops|
    ensures acc.dispatched <= r.dispatched && acc.events <= r.events
    ensures |r.dispatched| <= |acc.dispatched| + |pops| - i
    decreases |pops| - i
  {
    if i == |pops| then acc
    else if pops[i].Interrupt? then Trace(acc.dispatched, acc.events + [ConsumerShutdown], true)
    else ConsumeFrom(pops, i + 1, Then(acc, TurnOf(pops[i], parse)), parse)
  }

  function Started(): Trace {
    Trace([], [ConsumerStarted(QUEUE_KEY)], false)
  }

  /** `run_consumer()` over the pops `pops`. */
  function Consume(pops: seq<Pop>, parse: string -> Option<Json>): (r: Trace)
    ensures |r.events| >= 1 && r.events[0] == ConsumerStarted(QUEUE_KEY)
    ensures |r.dispatched| <= |pops|
  {
    ConsumeFrom(pops, 0, Started(), parse)
  }

  /** `run_consumer()`. */
  method RunConsumer(pops: seq<Pop>, parse: string -> Option<Json>)
    returns (dispatched: seq<map<string, Json>>, events: seq<Event>, stopped: bool)
    ensures Trace(dispatched, events, stopped) == Consume(pops, parse)
  {
    dispatched, events, stopped := [], [ConsumerStarted(QUEUE_KEY)], false;
    var i := 0;
    while i < |pops|
      invariant 0 <= i <= |pops|
      invariant Consume(pops, parse) == ConsumeFrom(pops, i, Trace(dispatched, events, false), parse)
      decreases |pops| - i
    {
      ghost var before := Trace(dispatched, events, false);
      ghost var turn: Turn;
      match pops[i] {
        case Interrupt =>
          events := events + [ConsumerShutdown];
          stopped := true;
          return;
        case Timeout =>
          turn := TurnOf(pops[i], parse);
          assert turn == Turn(None, []);
          assert dispatched + [] == dispatched && events + [] == events;
        case Boom =>
          turn := TurnOf(pops[i], parse);
          assert dispatched + [] == dispatched;
          events := events + [ConsumerError];
          assert turn == Turn(None, [ConsumerError]);
        case Raw(payload, delivery) =>
          turn := TurnOf(pops[i], parse);
          assert turn == Receive(payload, delivery, parse);
          var data := parse(payload);
          if data.None? {
            events := events + [InvalidJson(Truncated(payload))];
            assert turn == Turn(None, [InvalidJson(Truncated(payload))]);
          } else if !data.value.JObj? {
            events := events + [ConsumerError];
            assert turn == Turn(None, [ConsumerError]);
          } else {
            var task := FromDict(data.value.fields);
            if task.Err? {
              events := events + [InvalidTaskPayload(RequestIdOf(data.value.fields), task.error)];
              assert turn == Turn(None, [InvalidTaskPayload(RequestIdOf(data.value.fields), task.error)]);
            } else {
              var received := TaskReceived(task.value.requestId, task.value.sessionId, task.value.channel);
              events := events + [received];
              if delivery.Raises? {
                ConcatAssoc(before.events, [received], [ConsumerError]);
                assert [received] + [ConsumerError] == [received, ConsumerError];
                events := events + [ConsumerError];
                assert turn == Turn(None, [received, ConsumerError]);
              } else {
                dispatched := dispatched + [Dump(task.value)];
                assert turn == Turn(Some(Dump(task.value)), [received]);
              }
            }
          }
      }
      assert Trace(dispatched, events, false) == Then(before, turn);
      i := i + 1;
    }
  }

  // ---------------------------------------------------------------------------------------
  // Properties.

  /** The pops before the first interrupt. */
  function BeforeInterrupt(pops: seq<Pop>): (live: seq<Pop>)
    ensures |live| <= |pops|
    decreases |pops|
  {
    if pops == [] || pops[0].Interrupt? then [] else [pops[0]] + BeforeInterrupt(pops[1..])
  }

  /** The payload decodes to an object that builds a task, and handing it over succeeds. */
  predicate Valid(p: Pop, parse: string -> Option<Json>) {
    && p.Raw? && p.delivery.Succeeds?
    && var data := parse(p.payload);
       data.Some? && data.value.JObj? && FromDict(data.value.fields).Ok?
  }

  /** The tasks built from the valid pops, in pop order. */
  function ValidTasks(pops: seq<Pop>, parse: string -> Option<Json>): seq<GenerationTask>
    decreases |pops|
  {
    if pops == [] then []
    else
      (if Valid(pops[0], parse) then [FromDict(parse(pops[0].payload).value.fields).value] else [])
      + ValidTasks(pops[1..], parse)
  }

  function Dumps(ts: seq<GenerationTask>): (ds: seq<map<string, Json>>)
    ensures |ds| == |ts|
    ensures forall k :: 0 <= k < |ts| ==> ds[k] == Dump(ts[k])
  {
    if ts == [] then [] else [Dump(ts[0])] + Dumps(ts[1..])
  }

  lemma DumpsAppend(a: seq<GenerationTask>, b: seq<GenerationTask>)
    ensures Dumps(a + b) == Dumps(a) + Dumps(b)
  {
    var l, r := Dumps(a + b), Dumps(a) + Dumps(b);
    assert |l| == |r|;
    forall k | 0 <= k < |l| ensures l[k] == r[k] {
      if k < |a| {
        assert (a + b)[k] == a[k];
      } else {
        assert (a + b)[k] == b[k - |a|];
      }
    }
  }

  /** A turn hands over a dump exactly when its pop is valid, and then it is the dump of the
      task the payload builds. */
  lemma TurnDispatch(p: Pop, parse: string -> Option<Json>)
    requires !p.Interrupt?
    ensures TurnOf(p, parse).dispatch.Some? <==> Valid(p, parse)
    ensures p.Timeout? ==> TurnOf(p, parse) == Turn(None, [])
    ensures p.Boom? ==> TurnOf(p, parse) == Turn(None, [ConsumerError])
    ensures Valid(p, parse) ==> TurnOf(p, parse).dispatch.value == Dump(FromDict(parse(p.payload).value.fields).value)
  {
  }

  lemma {:induction false} DispatchedFrom(pops: seq<Pop>, i: nat, acc: Trace, parse: string -> Option<Json>)
    requires i <= |pops|
    ensures ConsumeFrom(pops, i, acc, parse).dispatched == acc.dispatched + Dumps(ValidTasks(BeforeInterrupt(pops[i..]), parse))
    decreases |pops| - i
  {
    var rest := pops[i..];
    if i == |pops| {
      assert rest == [];
    } else if pops[i].Interrupt? {
      assert rest[0] == pops[i];
    } else {
      DispatchedFrom(pops, i + 1, Then(acc, TurnOf(pops[i], parse)), parse);
      DispatchedStep(pops, i, acc, parse);
    }
  }

  /** One turn of the loop adds the dump of the pop's own task, if any, in front of what the
      later turns hand over. */
  lemma DispatchedStep(pops: seq<Pop>, i: nat, acc: Trace, parse: string -> Option<Json>)
    requires i < |pops| && !pops[i].Interrupt?
    requires var next := Then(acc, TurnOf(pops[i], parse));
             ConsumeFrom(pops, i + 1, next, parse).dispatched
               == next.dispatched + Dumps(ValidTasks(BeforeInterrupt(pops[i + 1..]), parse))
    ensures ConsumeFrom(pops, i, acc, parse).dispatched == acc.dispatched + Dumps(ValidTasks(BeforeInterrupt(pops[i..]), parse))
  {
    var own := OwnTask(pops[i], parse);
    var later := ValidTasks(BeforeInterrupt(pops[i + 1..]), parse);
    ConsumeStep(pops, i, acc, parse);
    ThenDispatched(acc, pops[i], parse);
    DumpsAppend(own, later);
    ConcatAssoc(acc.dispatched, Dumps(own), Dumps(later));
    LiveCons(pops, i, parse);
  }

  lemma ConsumeStep(pops: seq<Pop>, i: nat, acc: Trace, parse: string -> Option<Json>)
    requires i < |pops| && !pops[i].Interrupt?
    ensures ConsumeFrom(pops, i, acc, parse) == ConsumeFrom(pops, i + 1, Then(acc, TurnOf(pops[i], parse)), parse)
  {
  }

  /** A turn other than an interrupt hands over the dump of the pop's own task, if any. */
  lemma ThenDispatched(acc: Trace, p: Pop, parse: string -> Option<Json>)
    requires !p.Interrupt?
    ensures Then(acc, TurnOf(p, parse)).dispatched == acc.dispatched + Dumps(OwnTask(p, parse))
  {
    TurnDispatch(p, parse);
  }

  /** The valid tasks before the first interrupt, from a pop other than an interrupt on: the
      pop's own task, then those from the next pop on. */
  lemma LiveCons(pops: seq<Pop>, i: nat, parse: string -> Option<Json>)
    requires i < |pops| && !pops[i].Interrupt?
    ensures ValidTasks(BeforeInterrupt(pops[i..]), parse)
            == OwnTask(pops[i], parse) + ValidTasks(BeforeInterrupt(pops[i + 1..]), parse)
  {
    var rest := pops[i..];
    assert rest[0] == pops[i] && rest[1..] == pops[i + 1..];
    assert BeforeInterrupt(rest) == [pops[i]] + BeforeInterrupt(pops[i + 1..]);
    ValidTasksCons(pops[i], BeforeInterrupt(pops[i + 1..]), parse);
  }

  /** The task a pop contributes to the hand-over: the one its payload builds when it is
      valid, none otherwise. */
  function OwnTask(p: Pop, parse: string -> Option<Json>): seq<GenerationTask> {
    if Valid(p, parse) then [FromDict(parse(p.payload).value.fields).value] else []
  }

  lemma ValidTasksCons(p: Pop, live: seq<Pop>, parse: string -> Option<Json>)
    ensures ValidTasks([p] + live, parse) == OwnTask(p, parse) + ValidTasks(live, parse)
  {
    assert ([p] + live)[0] == p;
    assert ([p] + live)[1..] == live;
  }

  /** The consumer hands over, in pop order, exactly the dumps of the tasks built from the
      valid payloads popped before the first interrupt: invalid and undecodable payloads,
      timeouts and failures are dropped, and nothing after the interrupt is read. */
  lemma Dispatched(pops: seq<Pop>, parse: string -> Option<Json>)
    ensures Consume(pops, parse).dispatched == Dumps(ValidTasks(BeforeInterrupt(pops), parse))
  {
    DispatchedFrom(pops, 0, Started(), parse);
    assert pops[0..] == pops;
  }

  predicate EndsWithShutdown(events: seq<Event>) {
    |events| > 0 && events[|events| - 1] == ConsumerShutdown
  }

  lemma {:induction false} StoppedFrom(pops: seq<Pop>, i: nat, acc: Trace, parse: string -> Option<Json>)
    requires i <= |pops| && !acc.stopped
    ensures ConsumeFrom(pops, i, acc, parse).stopped <==> Interrupt in pops[i..]
    ensures Interrupt in pops[i..] ==> EndsWithShutdown(ConsumeFrom(pops, i, acc, parse).events)
    ensures forall more :: Interrupt in pops[i..] ==> ConsumeFrom(pops + more, i, acc, parse) == ConsumeFrom(pops, i, acc, parse)
    decreases |pops| - i
  {
    if i < |pops| {
      assert pops[i..] == [pops[i]] + pops[i + 1..];
      forall more ensures (pops + more)[i] == pops[i] {
      }
      if !pops[i].Interrupt? {
        StoppedFrom(pops, i + 1, Then(acc, TurnOf(pops[i], parse)), parse);
      }
    }
  }

  /** The loop stops exactly when it meets an interrupt, logging the shutdown last, and what
      the queue holds after the interrupt makes no difference. */
  lemma StopsAtInterrupt(pops: seq<Pop>, more: seq<Pop>, parse: string -> Option<Json>)
    ensures Consume(pops, parse).stopped <==> Interrupt in pops
    ensures Interrupt in pops ==>
              && EndsWithShutdown(Consume(pops, parse).events)
              && Consume(pops + more, parse) == Consume(pops, parse)
  {
    StoppedFrom(pops, 0, Started(), parse);
    assert pops[0..] == pops;
  }

  /** An undecodable payload logs its first 200 characters; a payload that does not build a
      task logs the payload's `request_id`, or "unknown" without one, and the failing fields;
      a decoded value that is not an object is a consumer error. None of them is handed over. */
  lemma DroppedPayloads(payload: string, delivery: Outcome, parse: string -> Option<Json>)
    ensures var t := Receive(payload, delivery, parse);
            && (parse(payload).None? ==>
                  && t.dispatch.None? && |t.events| == 1 && t.events[0].InvalidJson?
                  && |t.events[0].payload| == (if |payload| < LOGGED_PAYLOAD_CHARS then |payload| else LOGGED_PAYLOAD_CHARS)
                  && payload[..|t.events[0].payload|] == t.events[0].payload)
            && (parse(payload).Some? && !parse(payload).value.JObj? ==> t == Turn(None, [ConsumerError]))
            && (parse(payload).Some? && parse(payload).value.JObj? ==>
                  var data := parse(payload).value.fields;
                  FromDict(data).Err? ==>
                    && t.dispatch.None?
                    && t.events == [InvalidTaskPayload(RequestIdOf(data), FromDict(data).error)]
                    && ("request_id" in data ==> t.events[0].requestId == data["request_id"])
                    && ("request_id" !in data ==> t.events[0].requestId == JStr("unknown")))
  {
  }

  /** A dispatched dump is of the task the payload built, it carries the payload's
      `session_id`, and building a task from the dump gives the same task again: the handler
      receives exactly what the consumer validated. */
  lemma DispatchedRebuilds(payload: string, delivery: Outcome, parse: string -> Option<Json>)
    requires Receive(payload, delivery, parse).dispatch.Some?
    ensures var data := parse(payload).value.fields;
            var d := Receive(payload, delivery, parse).dispatch.value;
            && FromDict(data).Ok?
            && FromDict(d) == FromDict(data)
            && d["session_id"] == data["session_id"]
            && Receive(payload, delivery, parse).events ==
                 [TaskReceived(FromDict(data).value.requestId, FromDict(data).value.sessionId, FromDict(data).value.channel)]
  {
    var data := parse(payload).value.fields;
    var task := FromDict(data).value;
    RoundTrip(task);
    ChannelIsLiteral(data);
    assert "session_id" in data && data["session_id"] == JStr(task.sessionId);
  }
}
