/** The large-payload resolver around an SQS handler: bodies that are offload pointers are
    replaced, in place and in message order, by the object they point to; the pointers are
    collected and, when the annotation asks for it, deleted after the handler returns. */
module SqsLargeMessage {
  import opened LambdaEvents

  /** The marker every pointer body written by the payload-offloading client starts with. */
  const PointerPrefix: string := "[\"software.amazon.payloadoffloading.PayloadS3Pointer\""

  datatype PayloadS3Pointer = PayloadS3Pointer(s3BucketName: string, s3Key: string)

  /** The two storage exceptions the resolver catches. */
  datatype StorageError = S3Exception(detail: string) | SdkClientException(detail: string)

  /** Fetching an object: its content read as UTF-8, a storage exception from `getObject`,
      or an `IOException` while reading the returned stream. */
  datatype GetObjectResult = ObjectContent(content: string) | GetObjectFailed(error: StorageError) | ReadFailed

  /** The external collaborators: `PayloadS3Pointer.fromJson` and the S3 client's get and delete
      (a delete yields the storage exception it threw, if any). */
  datatype ObjectStore = ObjectStore(
    fromJson: string -> Option<PayloadS3Pointer>,
    getObject: PayloadS3Pointer -> GetObjectResult,
    deleteObject: PayloadS3Pointer -> Option<StorageError>)

  /** The annotation's `failureHandler` class, after instantiation: absent (null), `NoOpExceptionHandler`
      or a type it is assignable to, or any other handler, whose `handle(e, message)` is given as a function. */
  datatype FailureHandler =
    | NullHandler
    | NoOpHandler
    | CustomHandler(handle: (StorageError, Option<SqsMessage>) -> Completion)

  /** The cause attached to a `FailedProcessingLargePayloadException`. */
  datatype Cause = NoCause | StorageCause(error: StorageError) | ReadCause

  /** Every way resolving one pointer can end other than with a rewritten body. `NoContinuation` is
      a custom handler that returned normally: the source has no return after its catch blocks,
      so what happens next is not defined by it. */
  datatype Failure =
    | FailedProcessingLargePayload(message: string, cause: Cause)
    | FailureHandlerThrew(thrown: Throwable)
    | NoContinuation

  function MalformedPointerMessage(body: string): string
  {
    "Failed processing SQS body to extract S3 details. [ " + body + " ]."
  }

  function S3RecordMessage(p: PayloadS3Pointer): string
  {
    "Failed processing S3 record with [Bucket Name: " + p.s3BucketName + " Bucket Key: " + p.s3Key + "]"
  }

  // ----- Detection -----

  /** `isBodyLargeMessagePointer`: the body starts with the marker. */
  predicate IsBodyLargeMessagePointer(body: string): (b: bool)
    ensures b <==> |PointerPrefix| <= |body| && body[..|PointerPrefix|] == PointerPrefix
  {
    PointerPrefix <= body
  }

  /** Detection is `String.startsWith`: the body is at least as long as the marker and agrees with
      it character by character; nothing beyond the marker is looked at. */
  lemma DetectionIsStartsWith(body: string)
    ensures IsBodyLargeMessagePointer(body) <==>
      |body| >= |PointerPrefix| && forall i :: 0 <= i < |PointerPrefix| ==> body[i] == PointerPrefix[i]
  {
  }

  /** Any continuation of the marker, well-formed pointer or not, is detected as a pointer. */
  lemma MarkerAlwaysDetected(rest: string)
    ensures IsBodyLargeMessagePointer(PointerPrefix + rest)
  {
  }

  /** Bodies shorter than the marker, such as "plain text", are never pointers. */
  lemma ShortBodiesAreLiteral(body: string)
    ensures |body| < |PointerPrefix| ==> !IsBodyLargeMessagePointer(body)
    ensures !IsBodyLargeMessagePointer("plain text")
  {
  }

  // ----- Failure routing -----

  /** `handleFailure`: with no handler or a NoOp-compatible one the storage exception becomes a
      `FailedProcessingLargePayloadException` carrying it; otherwise the handler runs, and either
      its own throwable escapes or (returning normally) there is no continuation. Never a recovery. */
  function HandleFailure(message: Option<SqsMessage>, handler: FailureHandler, e: StorageError, text: string): (f: Failure)
    ensures f.FailedProcessingLargePayload? <==> !handler.CustomHandler?
    ensures f.FailedProcessingLargePayload? ==> f == FailedProcessingLargePayload(text, StorageCause(e))
    ensures handler.CustomHandler? ==> (f.FailureHandlerThrew? <==> handler.handle(e, message).Threw?)
    ensures f.FailureHandlerThrew? ==> handler.CustomHandler? && handler.handle(e, message) == Threw(f.thrown)
  {
    match handler
    case NullHandler => FailedProcessingLargePayload(text, StorageCause(e))
    case NoOpHandler => FailedProcessingLargePayload(text, StorageCause(e))
    case CustomHandler(handle) =>
      match handle(e, message)
      case Threw(t) => FailureHandlerThrew(t)
      case Returned => NoContinuation
  }

  // ----- Resolving one message -----

  /** What the loop body does with one message. */
  datatype Step = Skip | Rewrite(message: SqsMessage, pointer: PayloadS3Pointer) | Abort(failure: Failure)

  /** One message: not a pointer, left alone; a pointer that parses and whose object is fetched and
      read, its body replaced by the object; otherwise a failure. A marked body that does not parse
      is a failure whatever the handler, never treated as literal content. */
  function StepMessage(m: SqsMessage, handler: FailureHandler, store: ObjectStore): (s: Step)
    ensures s.Skip? <==> !IsBodyLargeMessagePointer(m.body)
    ensures s.Rewrite? ==>
      s.message == m.(body := s.message.body) &&
      store.fromJson(m.body) == Some(s.pointer) && store.getObject(s.pointer) == ObjectContent(s.message.body)
    ensures IsBodyLargeMessagePointer(m.body) && store.fromJson(m.body).None? ==>
      s == Abort(FailedProcessingLargePayload(MalformedPointerMessage(m.body), NoCause))
    ensures (IsBodyLargeMessagePointer(m.body) && store.fromJson(m.body).Some? &&
             store.getObject(store.fromJson(m.body).value).ObjectContent?) ==>
      s == Rewrite(m.(body := store.getObject(store.fromJson(m.body).value).content), store.fromJson(m.body).value)
    ensures (IsBodyLargeMessagePointer(m.body) && store.fromJson(m.body).Some? &&
             store.getObject(store.fromJson(m.body).value).ReadFailed?) ==>
      s == Abort(FailedProcessingLargePayload(S3RecordMessage(store.fromJson(m.body).value), ReadCause))
  {
    if !IsBodyLargeMessagePointer(m.body) then Skip
    else match store.fromJson(m.body)
      case None => Abort(FailedProcessingLargePayload(MalformedPointerMessage(m.body), NoCause))
      case Some(p) =>
        match store.getObject(p)
        case GetObjectFailed(e) => Abort(HandleFailure(Some(m), handler, e, S3RecordMessage(p)))
        case ReadFailed => Abort(FailedProcessingLargePayload(S3RecordMessage(p), ReadCause))
        case ObjectContent(c) => Rewrite(m.(body := c), p)
  }

  /** A storage exception while fetching a parsed pointer: fatal with no handler or the NoOp one,
      the custom handler's outcome otherwise; in no case is the body rewritten or skipped. */
  lemma FetchFailureRouting(m: SqsMessage, handler: FailureHandler, store: ObjectStore, p: PayloadS3Pointer, e: StorageError)
    requires IsBodyLargeMessagePointer(m.body)
    requires store.fromJson(m.body) == Some(p) && store.getObject(p) == GetObjectFailed(e)
    ensures StepMessage(m, handler, store).Abort?
    ensures !handler.CustomHandler? ==>
      StepMessage(m, handler, store).failure == FailedProcessingLargePayload(S3RecordMessage(p), StorageCause(e))
    ensures handler.CustomHandler? && handler.handle(e, Some(m)).Threw? ==>
      StepMessage(m, handler, store).failure == FailureHandlerThrew(handler.handle(e, Some(m)).thrown)
    ensures handler.CustomHandler? && handler.handle(e, Some(m)).Returned? ==>
      StepMessage(m, handler, store).failure == NoContinuation
  {
  }

  // ----- Resolving a batch -----

  datatype ResolveOutcome = Resolved(pointers: seq<PayloadS3Pointer>) | Aborted(at: nat, failure: Failure)

  /** The messages as they stand afterwards, and how resolution ended. */
  datatype Resolution = Resolution(messages: seq<SqsMessage>, outcome: ResolveOutcome)

  /** The loop body for a given failure handler and store. */
  function StepWith(handler: FailureHandler, store: ObjectStore): SqsMessage -> Step
  {
    m => StepMessage(m, handler, store)
  }

  /** One more message, at position `at`, added to the resolution of the messages before it:
      once resolution has failed, later messages are left as they were. */
  function Extend(prev: Resolution, m: SqsMessage, at: nat, step: SqsMessage -> Step): (r: Resolution)
    ensures |r.messages| == |prev.messages| + 1
    ensures r.outcome.Aborted? ==> r.outcome == prev.outcome || r.outcome.at == at
  {
    match prev.outcome
    case Aborted(_, _) => Resolution(prev.messages + [m], prev.outcome)
    case Resolved(ps) =>
      match step(m)
      case Skip => Resolution(prev.messages + [m], prev.outcome)
      case Rewrite(m', p) => Resolution(prev.messages + [m'], Resolved(ps + [p]))
      case Abort(f) => Resolution(prev.messages + [m], Aborted(at, f))
  }

  /** The loop of `processMessages` over a list of messages, taken one message at a time from the
      front with loop body `step`: after the first failure the remaining messages are left as they were. */
  function Resolve(msgs: seq<SqsMessage>, step: SqsMessage -> Step): (r: Resolution)
    ensures |r.messages| == |msgs|
    ensures r.outcome.Aborted? ==> r.outcome.at < |msgs|
    decreases |msgs|
  {
    if msgs == [] then Resolution([], Resolved([]))
    else
      var n := |msgs| - 1;
      Extend(Resolve(msgs[..n], step), msgs[n], n, step)
  }

  /** The pointers of the rewritten messages, in message order. */
  function Rewrites(msgs: seq<SqsMessage>, step: SqsMessage -> Step): seq<PayloadS3Pointer>
  {
    if msgs == [] then []
    else
      var n := |msgs| - 1;
      Rewrites(msgs[..n], step) + (if step(msgs[n]).Rewrite? then [step(msgs[n]).pointer] else [])
  }

  /** The bodies of the pointer messages, in message order. */
  function PointerBodies(msgs: seq<SqsMessage>): seq<string>
  {
    if msgs == [] then []
    else
      var n := |msgs| - 1;
      PointerBodies(msgs[..n]) + (if IsBodyLargeMessagePointer(msgs[n].body) then [msgs[n].body] else [])
  }

  /** Every message afterwards is either the message as it was or the rewrite its step produced. */
  lemma {:induction false} ResolveKeepsOrRewrites(msgs: seq<SqsMessage>, step: SqsMessage -> Step)
    ensures forall k :: 0 <= k < |msgs| ==>
      Resolve(msgs, step).messages[k] == msgs[k] ||
      (step(msgs[k]).Rewrite? && Resolve(msgs, step).messages[k] == step(msgs[k]).message)
    decreases |msgs|
  {
    if msgs != [] {
      var n := |msgs| - 1;
      ResolveKeepsOrRewrites(msgs[..n], step);
      var prev := Resolve(msgs[..n], step);
      var r := Resolve(msgs, step);
      forall k | 0 <= k < n
        ensures r.messages[k] == prev.messages[k] && msgs[k] == msgs[..n][k]
      {
      }
    }
  }

  /** Resolution succeeds exactly when no message's step fails. */
  lemma {:induction false} ResolvedIffNoStepFails(msgs: seq<SqsMessage>, step: SqsMessage -> Step)
    ensures Resolve(msgs, step).outcome.Resolved? <==> forall k :: 0 <= k < |msgs| ==> !step(msgs[k]).Abort?
    decreases |msgs|
  {
    if msgs != [] {
      var n := |msgs| - 1;
      ResolvedIffNoStepFails(msgs[..n], step);
      forall k | 0 <= k < n ensures msgs[k] == msgs[..n][k] { }
    }
  }

  /** On success every step took effect: skipped messages are as they were, rewritten ones hold their
      rewrite, and the pointers returned are those of the rewrites, in message order. */
  lemma {:induction false} ResolvedAppliesEveryStep(msgs: seq<SqsMessage>, step: SqsMessage -> Step)
    requires Resolve(msgs, step).outcome.Resolved?
    ensures forall k :: 0 <= k < |msgs| && step(msgs[k]).Skip? ==> Resolve(msgs, step).messages[k] == msgs[k]
    ensures forall k :: 0 <= k < |msgs| && step(msgs[k]).Rewrite? ==>
      Resolve(msgs, step).messages[k] == step(msgs[k]).message
    ensures Resolve(msgs, step).outcome.pointers == Rewrites(msgs, step)
    decreases |msgs|
  {
    if msgs != [] {
      var n := |msgs| - 1;
      var init := msgs[..n];
      ResolvedAppliesEveryStep(init, step);
      var prev := Resolve(init, step);
      var r := Resolve(msgs, step);
      forall k | 0 <= k < n
        ensures r.messages[k] == prev.messages[k] && msgs[k] == init[k]
      {
      }
    }
  }

  /** A resolution that aborted at i: the messages before i resolved, and the step of message i
      produced the reported failure. */
  lemma {:induction false} AbortedStep(msgs: seq<SqsMessage>, step: SqsMessage -> Step)
    requires Resolve(msgs, step).outcome.Aborted?
    ensures var o := Resolve(msgs, step).outcome;
      Resolve(msgs[..o.at], step).outcome.Resolved? && step(msgs[o.at]) == Abort(o.failure)
    decreases |msgs|
  {
    var n := |msgs| - 1;
    var init := msgs[..n];
    var o := Resolve(msgs, step).outcome;
    if Resolve(init, step).outcome.Aborted? {
      AbortedStep(init, step);
      assert init[..o.at] == msgs[..o.at];
    } else {
      assert init == msgs[..o.at];
    }
  }

  /** Resolving a list whose first i messages resolve and whose message i fails: the outcome is that
      failure at i, with the first i messages resolved and the rest as they were. */
  lemma {:induction false} ResolveStopsAt(msgs: seq<SqsMessage>, step: SqsMessage -> Step, i: nat)
    requires i < |msgs|
    requires Resolve(msgs[..i], step).outcome.Resolved?
    requires step(msgs[i]).Abort?
    ensures Resolve(msgs, step) == Resolution(Resolve(msgs[..i], step).messages + msgs[i..], Aborted(i, step(msgs[i]).failure))
    decreases |msgs|
  {
    var n := |msgs| - 1;
    var init := msgs[..n];
    if n == i {
      assert init == msgs[..i];
      assert msgs[i..] == [msgs[n]];
    } else {
      assert init[..i] == msgs[..i];
      assert init[i] == msgs[i];
      ResolveStopsAt(init, step, i);
      assert msgs[i..] == init[i..] + [msgs[n]];
    }
  }

  /** When resolution aborts at message i: the step of message i failed with exactly the reported
      failure, every earlier step succeeded, messages before i hold what resolving them alone gives,
      and messages from i on are untouched. */
  lemma AbortedAtFirstFailure(msgs: seq<SqsMessage>, step: SqsMessage -> Step)
    requires Resolve(msgs, step).outcome.Aborted?
    ensures var r := Resolve(msgs, step);
      var i := r.outcome.at;
      step(msgs[i]) == Abort(r.outcome.failure) &&
      (forall k :: 0 <= k < i ==> !step(msgs[k]).Abort?) &&
      Resolve(msgs[..i], step).outcome.Resolved? &&
      r.messages[..i] == Resolve(msgs[..i], step).messages &&
      r.messages[i..] == msgs[i..]
  {
    var i := Resolve(msgs, step).outcome.at;
    AbortedStep(msgs, step);
    ResolveStopsAt(msgs, step, i);
    ResolvedIffNoStepFails(msgs[..i], step);
    var prefix := Resolve(msgs[..i], step).messages;
    assert (prefix + msgs[i..])[..i] == prefix;
    assert (prefix + msgs[i..])[i..] == msgs[i..];
    forall k | 0 <= k < i ensures msgs[k] == msgs[..i][k] { }
  }

  /** One more message that does not fail extends a successful resolution of the messages before it. */
  lemma ResolveContinues(msgs: seq<SqsMessage>, step: SqsMessage -> Step, i: nat)
    requires i < |msgs|
    requires Resolve(msgs[..i], step).outcome.Resolved?
    requires !step(msgs[i]).Abort?
    ensures var prev := Resolve(msgs[..i], step);
      Resolve(msgs[..i + 1], step) ==
        if step(msgs[i]).Skip? then Resolution(prev.messages + [msgs[i]], prev.outcome)
        else Resolution(prev.messages + [step(msgs[i]).message], Resolved(prev.outcome.pointers + [step(msgs[i]).pointer]))
  {
    assert msgs[..i + 1][..i] == msgs[..i];
  }

  /** Only bodies are ever written: the number and order of messages and every other attribute stay,
      and a message whose body lacks the marker is left exactly as it was. */
  lemma ResolveOnlyWritesPointerBodies(msgs: seq<SqsMessage>, handler: FailureHandler, store: ObjectStore)
    ensures var r := Resolve(msgs, StepWith(handler, store));
      |r.messages| == |msgs| &&
      (forall k :: 0 <= k < |msgs| ==> r.messages[k] == msgs[k].(body := r.messages[k].body)) &&
      (forall k :: 0 <= k < |msgs| && !IsBodyLargeMessagePointer(msgs[k].body) ==> r.messages[k] == msgs[k])
  {
    var step := StepWith(handler, store);
    ResolveKeepsOrRewrites(msgs, step);
    forall k | 0 <= k < |msgs| ensures step(msgs[k]) == StepMessage(msgs[k], handler, store) { }
  }

  /** With every message's step succeeding, the rewrites correspond one to one, in order, with the
      pointer bodies, each rewrite carrying what its body parses to. */
  lemma {:induction false} RewritesMatchPointerBodies(msgs: seq<SqsMessage>, handler: FailureHandler, store: ObjectStore)
    requires forall k :: 0 <= k < |msgs| ==> !StepMessage(msgs[k], handler, store).Abort?
    ensures |Rewrites(msgs, StepWith(handler, store))| == |PointerBodies(msgs)|
    ensures forall j :: 0 <= j < |PointerBodies(msgs)| ==>
      store.fromJson(PointerBodies(msgs)[j]) == Some(Rewrites(msgs, StepWith(handler, store))[j])
    decreases |msgs|
  {
    if msgs != [] {
      var n := |msgs| - 1;
      var init := msgs[..n];
      forall k | 0 <= k < n ensures init[k] == msgs[k] { }
      RewritesMatchPointerBodies(init, handler, store);
      var s := StepMessage(msgs[n], handler, store);
      assert StepWith(handler, store)(msgs[n]) == s;
    }
  }

  /** On success every pointer message holds the content of the object its pointer names, every
      other message is as it was, and the returned list holds one pointer per pointer message, in
      message order: the j-th is what the j-th pointer body parses to. */
  lemma ResolvedRewritesEveryPointer(msgs: seq<SqsMessage>, handler: FailureHandler, store: ObjectStore)
    requires Resolve(msgs, StepWith(handler, store)).outcome.Resolved?
    ensures var r := Resolve(msgs, StepWith(handler, store));
      (forall k :: 0 <= k < |msgs| && IsBodyLargeMessagePointer(msgs[k].body) ==>
        store.fromJson(msgs[k].body).Some? &&
        store.getObject(store.fromJson(msgs[k].body).value) == ObjectContent(r.messages[k].body)) &&
      |r.outcome.pointers| == |PointerBodies(msgs)| &&
      (forall j :: 0 <= j < |PointerBodies(msgs)| ==> store.fromJson(PointerBodies(msgs)[j]) == Some(r.outcome.pointers[j]))
  {
    var step := StepWith(handler, store);
    ResolvedIffNoStepFails(msgs, step);
    ResolvedAppliesEveryStep(msgs, step);
    forall k | 0 <= k < |msgs| ensures step(msgs[k]) == StepMessage(msgs[k], handler, store) { }
    RewritesMatchPointerBodies(msgs, handler, store);
  }

  lemma ValidPointerDoesNotFail(m: SqsMessage, handler: FailureHandler, store: ObjectStore)
    requires IsBodyLargeMessagePointer(m.body) ==>
      store.fromJson(m.body).Some? && store.getObject(store.fromJson(m.body).value).ObjectContent?
    ensures !StepWith(handler, store)(m).Abort?
  {
    var s := StepMessage(m, handler, store);
    assert StepWith(handler, store)(m) == s;
  }

  /** A batch whose every marked body parses to a pointer whose object is fetched and read resolves,
      whatever the failure handler. */
  lemma ValidPointersResolve(msgs: seq<SqsMessage>, handler: FailureHandler, store: ObjectStore)
    requires forall k :: 0 <= k < |msgs| && IsBodyLargeMessagePointer(msgs[k].body) ==>
      store.fromJson(msgs[k].body).Some? && store.getObject(store.fromJson(msgs[k].body).value).ObjectContent?
    ensures Resolve(msgs, StepWith(handler, store)).outcome.Resolved?
  {
    var step := StepWith(handler, store);
    forall k | 0 <= k < |msgs| ensures !step(msgs[k]).Abort?
    {
      ValidPointerDoesNotFail(msgs[k], handler, store);
    }
    ResolvedIffNoStepFails(msgs, step);
  }

  /** `processMessages`: scans the messages in order and rewrites each pointer message's body in
      place; the first failure stops the scan, leaving the messages already rewritten as they are. */
  method ProcessMessages(records: array<SqsMessage>, handler: FailureHandler, store: ObjectStore)
    returns (outcome: ResolveOutcome)
    modifies records
    ensures records[..] == Resolve(old(records[..]), StepWith(handler, store)).messages
    ensures outcome == Resolve(old(records[..]), StepWith(handler, store)).outcome
  {
    ghost var input := records[..];
    ghost var body := StepWith(handler, store);
    var s3Pointers: seq<PayloadS3Pointer> := [];
    for i := 0 to records.Length
      invariant forall k :: i <= k < records.Length ==> records[k] == input[k]
      invariant records[..i] == Resolve(input[..i], body).messages
      invariant Resolve(input[..i], body).outcome == Resolved(s3Pointers)
    {
      var message := records[i];
      var step := StepMessage(message, handler, store);
      assert body(input[i]) == step;
      if step.Abort? {
        outcome := Aborted(i, step.failure);
        ResolveStopsAt(input, body, i);
        assert records[..] == records[..i] + input[i..];
        return;
      }
      ResolveContinues(input, body, i);
      if step.Rewrite? {
        records[i] := step.message;
        s3Pointers := s3Pointers + [step.pointer];
      }
      assert records[..i + 1] == records[..i] + [records[i]];
    }
    assert input[..records.Length] == input;
    outcome := Resolved(s3Pointers);
  }

  /** The public one-argument `processMessages`: the same scan with the NoOp handler, so every
      storage failure is fatal. */
  method ProcessMessagesWithNoOpHandler(records: array<SqsMessage>, store: ObjectStore)
    returns (outcome: ResolveOutcome)
    modifies records
    ensures records[..] == Resolve(old(records[..]), StepWith(NoOpHandler, store)).messages
    ensures outcome == Resolve(old(records[..]), StepWith(NoOpHandler, store)).outcome
  {
    outcome := ProcessMessages(records, NoOpHandler, store);
  }

  // ----- Deleting payloads -----

  /** The two-argument `deleteMessage`: deletes the object, routing a storage exception through the
      handler with no message attached. */
  function DeleteMessageWith(p: PayloadS3Pointer, handler: FailureHandler, store: ObjectStore): (r: Option<Failure>)
    ensures r.None? <==> store.deleteObject(p).None?
    ensures r.Some? ==> r.value == HandleFailure(None, handler, store.deleteObject(p).value, S3RecordMessage(p))
  {
    match store.deleteObject(p)
    case None => None
    case Some(e) => Some(HandleFailure(None, handler, e, S3RecordMessage(p)))
  }

  /** The one-argument `deleteMessage`, used by the cleanup: the NoOp handler, so a failing delete
      always raises `FailedProcessingLargePayloadException`. */
  function DeleteMessage(p: PayloadS3Pointer, store: ObjectStore): (r: Option<Failure>)
    ensures r.None? <==> store.deleteObject(p).None?
    ensures r.Some? ==> r.value == FailedProcessingLargePayload(S3RecordMessage(p), StorageCause(store.deleteObject(p).value))
  {
    DeleteMessageWith(p, NoOpHandler, store)
  }

  /** `pointersToDelete.forEach(deleteMessage)`: deletes are issued in order; the first failing
      one throws and no later pointer is deleted. */
  method DeletePayloads(pointers: seq<PayloadS3Pointer>, store: ObjectStore)
    returns (issued: seq<PayloadS3Pointer>, failure: Option<Failure>)
    ensures issued <= pointers
    ensures forall k :: 0 <= k < |issued| - 1 ==> store.deleteObject(issued[k]).None?
    ensures failure.None? <==> forall k :: 0 <= k < |pointers| ==> store.deleteObject(pointers[k]).None?
    ensures failure.None? ==> issued == pointers
    ensures failure.Some? ==> |issued| > 0 && failure == DeleteMessage(issued[|issued| - 1], store)
  {
    issued := [];
    for i := 0 to |pointers|
      invariant issued == pointers[..i]
      invariant forall k :: 0 <= k < i ==> store.deleteObject(pointers[k]).None?
    {
      issued := issued + [pointers[i]];
      var deleted := DeleteMessage(pointers[i], store);
      if deleted.Some? {
        return issued, deleted;
      }
    }
    assert pointers[..|pointers|] == pointers;
    failure := None;
  }

  // ----- The advice around the handler -----

  /** An argument of the intercepted method. */
  datatype Arg = SqsEventArg(records: array<SqsMessage>) | ContextArg | OtherArg

  /** What the handler sees of an argument when it runs. */
  datatype ArgValue = SqsEventValue(records: seq<SqsMessage>) | ContextValue | OtherValue

  /** The advice's annotation: whether to delete the payloads, and the failure handler. */
  datatype SqsLargeMessageConfig = SqsLargeMessageConfig(deletePayloads: bool, failureHandler: FailureHandler)

  /** How the advised call ends. */
  datatype AroundOutcome<V> =
    | Proceeded(value: V)
    | ResolutionFailed(failure: Failure)
    | HandlerThrew(thrown: Throwable)
    | CleanupFailed(failure: Failure)

  /** The method takes exactly an `SQSEvent` and a `Context`; the event's message list is then the
      only buffer the advice may rewrite. */
  predicate PlacedOnSqsEventRequestHandler(args: seq<Arg>): (b: bool)
    ensures b ==> |args| == 2 && args[0].SqsEventArg? && Buffers(args) == {args[0].records}
  {
    |args| == 2 && args[0].SqsEventArg? && args[1].ContextArg?
  }

  function Buffers(args: seq<Arg>): set<array<SqsMessage>>
  {
    set a | a in args && a.SqsEventArg? :: a.records
  }

  function ValueOf(a: Arg): ArgValue
    reads if a.SqsEventArg? then {a.records} else {}
  {
    match a
    case SqsEventArg(records) => SqsEventValue(records[..])
    case ContextArg => ContextValue
    case OtherArg => OtherValue
  }

  function Snapshot(args: seq<Arg>): (vs: seq<ArgValue>)
    reads Buffers(args)
    ensures |vs| == |args|
  {
    seq(|args|, i requires 0 <= i < |args| reads Buffers(args) => ValueOf(args[i]))
  }

  function FromProceed<V>(o: Outcome<V>): AroundOutcome<V>
  {
    match o
    case Value(v) => Proceeded(v)
    case Raised(t) => HandlerThrew(t)
  }

  /** `around`: a handler taking `(SQSEvent, Context)` has its messages resolved first, then runs on
      the rewritten event; only when it returns and `deletePayloads` is set are the collected
      pointers deleted. Any other method runs with its arguments untouched. */
  method Around<V>(isHandlerMethod: bool, args: seq<Arg>, config: SqsLargeMessageConfig, store: ObjectStore,
                   proceed: seq<ArgValue> -> Outcome<V>)
    returns (r: AroundOutcome<V>, ghost deleted: seq<PayloadS3Pointer>)
    modifies Buffers(args)
    ensures !(isHandlerMethod && PlacedOnSqsEventRequestHandler(args)) ==>
      unchanged(Buffers(args)) && deleted == [] && r == FromProceed(proceed(Snapshot(args)))
    ensures isHandlerMethod && PlacedOnSqsEventRequestHandler(args) ==>
      var res := Resolve(old(args[0].records[..]), StepWith(config.failureHandler, store));
      args[0].records[..] == res.messages &&
      (res.outcome.Aborted? ==> deleted == [] && r == ResolutionFailed(res.outcome.failure)) &&
      (res.outcome.Resolved? ==>
        var proceeded := proceed([SqsEventValue(res.messages), ContextValue]);
        (proceeded.Raised? || !config.deletePayloads ==> deleted == [] && r == FromProceed(proceeded)) &&
        (proceeded.Value? && config.deletePayloads ==>
          deleted <= res.outcome.pointers &&
          (forall k :: 0 <= k < |deleted| - 1 ==> store.deleteObject(deleted[k]).None?) &&
          (r == Proceeded(proceeded.value) <==>
            forall k :: 0 <= k < |res.outcome.pointers| ==> store.deleteObject(res.outcome.pointers[k]).None?) &&
          (r == Proceeded(proceeded.value) ==> deleted == res.outcome.pointers) &&
          (r != Proceeded(proceeded.value) ==>
            r.CleanupFailed? && |deleted| > 0 && DeleteMessage(deleted[|deleted| - 1], store) == Some(r.failure))))
  {
    deleted := [];
    if isHandlerMethod && PlacedOnSqsEventRequestHandler(args) {
      var records := args[0].records;
      assert args[0] in args;
      var resolved := ProcessMessages(records, config.failureHandler, store);
      if resolved.Aborted? {
        return ResolutionFailed(resolved.failure), [];
      }
      var proceeded := proceed([SqsEventValue(records[..]), ContextValue]);
      if proceeded.Raised? || !config.deletePayloads {
        return FromProceed(proceeded), [];
      }
      var issued, failure := DeletePayloads(resolved.pointers, store);
      deleted := issued;
      if failure.Some? {
        r := CleanupFailed(failure.value);
      } else {
        r := Proceeded(proceeded.value);
      }
    } else {
      r := FromProceed(proceed(Snapshot(args)));
    }
  }
}
