# Batch processing and large SQS payloads, modelled in Dafny

This project models two pieces of Powertools for AWS Lambda (Java):

- **The batch processors** (`SQSBatchProcessor`, `KinesisBatchProcessor`). `processBatch` walks the
  records of an event in order and hands each one to user logic. Pass-through mode hands over the
  raw record. Otherwise the record's data is decoded into the processor's item type and the
  decoded item is handed over. Any throwable is caught at the record boundary and appends a
  failure entry with the record's id. In the Kinesis binding, and in the corrected SQS binding, one
  bad record therefore never aborts the batch. The SQS binding as written leaves its failure list
  null, so its first failure aborts the batch (see "## Findings"). Both bindings run
  through a single generic engine (`BatchProcessor`). It is generic over the record type, the way
  ids are read, the decoder and the two user callbacks.
- **The large-payload resolver** (`SqsLargeMessageAspect`). Before an SQS handler runs, each message
  whose body starts with the offload marker `["software.amazon.payloadoffloading.PayloadS3Pointer"`
  is handled in turn: its pointer is parsed and the S3 object is fetched. The message body is then
  overwritten in place with the object's content. The pointers are collected in message order.
  If the annotation asks for it, they are deleted after the handler returns. Storage failures go
  to a failure handler or become a fatal `FailedProcessingLargePayloadException`.

Files:
- `lambda_events.dfy`: the shared shapes (messages, records, throwables, call outcomes).
- `batch_processor.dfy`: the generic engine and its specification.
- `sqs_batch_processor.dfy`, `kinesis_batch_processor.dfy`: the two bindings.
- `sqs_large_message.dfy`: the resolver, the deletion loop and the advice around the handler.

External collaborators are passed in as function values:
- `PayloadS3Pointer.fromJson`;
- the S3 get (with the UTF-8 read of the stream) and the S3 delete;
- the user's failure handler, the user's batch callbacks and `EventDeserializer`;
- the wrapped Lambda handler (`pjp.proceed`).

The SQS message list is an array of message values. `setBody` is an element update.

The resolver loop is specified by `Resolve`, which takes the handling of one message (`StepMessage`) as
a parameter. Its ordering and stopping lemmas hold for any such step. `StepWith(handler, store)` is the
aspect's own step, and the lemmas about pointer bodies are stated for it.

## Model

| member | source | states |
|---|---|---|
| `BatchProcessor.AttemptOf` | powertools-batch/src/main/java/software/amazon/lambda/powertools/batch2/SQSBatchProcessor.java:18-22 | The raw callback gets the record exactly when the target type is the raw record type. Otherwise the record is decoded. A decode error is that record's failure, and the decoded item is what `processItem` receives. |
| `BatchProcessor.FailedPositions` | powertools-batch/src/main/java/software/amazon/lambda/powertools/batch2/KinesisBatchProcessor.java:18-28 | The failure positions are valid record positions, and there are never more of them than records. |
| `BatchProcessor.FailedPositionsExact` | powertools-batch/src/main/java/software/amazon/lambda/powertools/batch2/KinesisBatchProcessor.java:25-26 | A position is listed if and only if that record's decoding or processing throws. The list is strictly ascending, so each record contributes at most one entry, in source order. |
| `BatchProcessor.NoFailuresIffAllSucceed` | powertools-batch/src/main/java/software/amazon/lambda/powertools/batch2/KinesisBatchProcessor.java:17-29 | The failure list is empty if and only if every record is processed without a throwable. |
| `BatchProcessor.ProcessBatch` | powertools-batch/src/main/java/software/amazon/lambda/powertools/batch2/KinesisBatchProcessor.java:14-30 | Every record is attempted exactly once, in source order, and dispatched as `AttemptOf` says. The target type is examined once, before the loop. The result is the ids of the failing records, in order. No throwable escapes, as in the Kinesis binding, whose failure list starts empty. |
| `SqsBatchProcessor.Respond` | powertools-batch/src/main/java/software/amazon/lambda/powertools/batch2/SQSBatchProcessor.java:24 | The response holds one `BatchItemFailure` per failed id, with the same identifiers in the same order. |
| `SqsBatchProcessor.ProcessBatch` | powertools-batch/src/main/java/software/amazon/lambda/powertools/batch2/SQSBatchProcessor.java:12-28 | The corrected SQS binding. The response lists exactly the `messageId` of each failing message, in message order. |
| `SqsBatchProcessor.DefaultPassThroughReportsNoFailure` | powertools-batch/src/main/java/software/amazon/lambda/powertools/batch2/SQSBatchProcessor.java:30-32 | In pass-through mode with the default `processItem(SQSMessage, Context)`, nothing fails. |
| `SqsBatchProcessor.ProcessBatchAsWritten` | powertools-batch/src/main/java/software/amazon/lambda/powertools/batch2/SQSBatchProcessor.java:15-26 | As written, the response list is null. With no failures, the method returns that null list. Otherwise the first failing message throws `NullPointerException` out of the catch block, and later messages are never attempted. |
| `SqsBatchProcessor.SingleFailingMessageEscapesAsWritten` | powertools-batch/src/main/java/software/amazon/lambda/powertools/batch2/SQSBatchProcessor.java:23-25 | A concrete batch of one failing message. Its failure list is `[0]`, so the as-written processor throws at message 0. The corrected processor reports `[BatchItemFailure("m1")]`. |
| `KinesisBatchProcessor.ProcessBatch` | powertools-batch/src/main/java/software/amazon/lambda/powertools/batch2/KinesisBatchProcessor.java:14-30 | The response starts empty and lists exactly the `eventID` of each failing record, in record order. No throwable escapes. |
| `KinesisBatchProcessor.FailureAttribution` | powertools-batch/src/main/java/software/amazon/lambda/powertools/batch2/KinesisBatchProcessor.java:17-29 | Record k is reported if and only if it fails. Reported positions ascend. If every record succeeds, nothing is reported. |
| `KinesisBatchProcessor.DefaultPassThroughReportsNoFailure` | powertools-batch/src/main/java/software/amazon/lambda/powertools/batch2/KinesisBatchProcessor.java:32-34 | In pass-through mode with the default `processRecord`, nothing fails. |
| `SqsLargeMessage.IsBodyLargeMessagePointer` | powertools-sqs/src/main/java/software/amazon/lambda/powertools/sqs/internal/SqsLargeMessageAspect.java:102-104 | A body is a pointer if and only if it is at least as long as the marker and its first characters are the marker. |
| `SqsLargeMessage.DetectionIsStartsWith` | powertools-sqs/src/main/java/software/amazon/lambda/powertools/sqs/internal/SqsLargeMessageAspect.java:102-104 | A body is a pointer if and only if it is at least as long as the marker and agrees with it character by character. Nothing past the marker is examined. |
| `SqsLargeMessage.MarkerAlwaysDetected` | powertools-sqs/src/main/java/software/amazon/lambda/powertools/sqs/internal/SqsLargeMessageAspect.java:102-104 | Every body that starts with the marker is detected as a pointer, whatever follows the marker. |
| `SqsLargeMessage.ShortBodiesAreLiteral` | powertools-sqs/src/main/java/software/amazon/lambda/powertools/sqs/internal/SqsLargeMessageAspect.java:102-104 | A body shorter than the marker (for example "plain text") is never a pointer. |
| `SqsLargeMessage.HandleFailure` | powertools-sqs/src/main/java/software/amazon/lambda/powertools/sqs/internal/SqsLargeMessageAspect.java:146-156 | A null or NoOp-compatible handler yields `FailedProcessingLargePayloadException` carrying the storage exception. Any other handler is invoked. Its throwable escapes, and a normal return leaves no defined continuation. No path recovers. |
| `SqsLargeMessage.StepMessage` | powertools-sqs/src/main/java/software/amazon/lambda/powertools/sqs/internal/SqsLargeMessageAspect.java:79-95 | A message is skipped if and only if its body lacks the marker. A marked body that parses, and whose object is fetched and read, is rewritten to that object with only the body changed. A marked body that fails to parse is fatal for every handler. A failed read of the object is fatal, with the read as its cause. |
| `SqsLargeMessage.FetchFailureRouting` | powertools-sqs/src/main/java/software/amazon/lambda/powertools/sqs/internal/SqsLargeMessageAspect.java:131-144 | A storage exception during the fetch always aborts. With a null or NoOp handler it is `FailedProcessingLargePayloadException`. With a custom handler it is that handler's throwable, or no continuation. |
| `SqsLargeMessage.Resolve` | powertools-sqs/src/main/java/software/amazon/lambda/powertools/sqs/internal/SqsLargeMessageAspect.java:76-99 | Resolution, for any loop body, keeps the number of messages. An abort is reported at a position inside the batch. |
| `SqsLargeMessage.ResolveKeepsOrRewrites` | powertools-sqs/src/main/java/software/amazon/lambda/powertools/sqs/internal/SqsLargeMessageAspect.java:78-97 | Every message afterwards is either the message as it was or the rewrite its own step produced. |
| `SqsLargeMessage.ResolvedIffNoStepFails` | powertools-sqs/src/main/java/software/amazon/lambda/powertools/sqs/internal/SqsLargeMessageAspect.java:78-97 | Resolution succeeds if and only if no message's step fails. |
| `SqsLargeMessage.ResolvedAppliesEveryStep` | powertools-sqs/src/main/java/software/amazon/lambda/powertools/sqs/internal/SqsLargeMessageAspect.java:78-99 | On success, skipped messages are as they were, rewritten messages hold their rewrite, and the returned pointers are those of the rewrites in message order. |
| `SqsLargeMessage.ResolveStopsAt` | powertools-sqs/src/main/java/software/amazon/lambda/powertools/sqs/internal/SqsLargeMessageAspect.java:78-97 | If the messages before i resolve and message i fails, the batch aborts at i with that failure. The messages before i are resolved and the rest are untouched. |
| `SqsLargeMessage.ResolveContinues` | powertools-sqs/src/main/java/software/amazon/lambda/powertools/sqs/internal/SqsLargeMessageAspect.java:78-97 | A message whose step does not fail extends a successful resolution: it is kept or replaced by its rewrite, and its pointer is appended. |
| `SqsLargeMessage.AbortedAtFirstFailure` | powertools-sqs/src/main/java/software/amazon/lambda/powertools/sqs/internal/SqsLargeMessageAspect.java:78-97 | An abort at message i means: i is the first failing message and carries the reported failure. Messages before i are already rewritten. Messages from i on are untouched. |
| `SqsLargeMessage.ResolveOnlyWritesPointerBodies` | powertools-sqs/src/main/java/software/amazon/lambda/powertools/sqs/internal/SqsLargeMessageAspect.java:78-97 | With the aspect's loop body, only bodies change. Order, ids and every other attribute stay, and messages without the marker are left exactly as they were. |
| `SqsLargeMessage.RewritesMatchPointerBodies` | powertools-sqs/src/main/java/software/amazon/lambda/powertools/sqs/internal/SqsLargeMessageAspect.java:79-95 | When no message fails, the collected pointers correspond one to one, in order, with the marked bodies, each being what its body parses to. |
| `SqsLargeMessage.ValidPointersResolve` | powertools-sqs/src/main/java/software/amazon/lambda/powertools/sqs/internal/SqsLargeMessageAspect.java:76-99 | A batch whose every marked body parses, and whose objects are all fetched and read, resolves, whatever the failure handler. |
| `SqsLargeMessage.ResolvedRewritesEveryPointer` | powertools-sqs/src/main/java/software/amazon/lambda/powertools/sqs/internal/SqsLargeMessageAspect.java:76-99 | On success, every pointer message's body is the content of the object its pointer names. The returned list has one pointer per pointer message, in message order. |
| `SqsLargeMessage.ProcessMessages` | powertools-sqs/src/main/java/software/amazon/lambda/powertools/sqs/internal/SqsLargeMessageAspect.java:73-100 | The in-place loop leaves the array and returns the outcome exactly as `Resolve` of the original messages gives them. |
| `SqsLargeMessage.ProcessMessagesWithNoOpHandler` | powertools-sqs/src/main/java/software/amazon/lambda/powertools/sqs/internal/SqsLargeMessageAspect.java:69-71 | The public overload is the same loop with the NoOp handler. |
| `SqsLargeMessage.DeleteMessageWith` | powertools-sqs/src/main/java/software/amazon/lambda/powertools/sqs/internal/SqsLargeMessageAspect.java:120-129 | A delete fails if and only if S3's delete throws. The failure is routed through the handler with no message attached. |
| `SqsLargeMessage.DeleteMessage` | powertools-sqs/src/main/java/software/amazon/lambda/powertools/sqs/internal/SqsLargeMessageAspect.java:116-118 | With the NoOp handler, a failing delete is always `FailedProcessingLargePayloadException` carrying the storage exception. |
| `SqsLargeMessage.DeletePayloads` | powertools-sqs/src/main/java/software/amazon/lambda/powertools/sqs/internal/SqsLargeMessageAspect.java:55-57 | Deletes are issued in pointer order and stop at the first failure, which is returned. Every earlier delete succeeded. No failure is returned exactly when every pointer was deleted. |
| `SqsLargeMessage.PlacedOnSqsEventRequestHandler` | powertools-sqs/src/main/java/software/amazon/lambda/powertools/sqs/internal/SqsLargeMessageAspect.java:174-178 | When it holds, the method has exactly two arguments, the first is an `SQSEvent`, and that event's message list is the only buffer the advice may rewrite. |
| `SqsLargeMessage.Around` | powertools-sqs/src/main/java/software/amazon/lambda/powertools/sqs/internal/SqsLargeMessageAspect.java:44-62 | A non-handler method, or one whose arguments are not exactly `(SQSEvent, Context)`, runs with its arguments untouched and nothing deleted. Otherwise the messages are resolved first, and an abort skips the handler. The handler sees the rewritten event. Deletion happens only when the handler returns and `deletePayloads` is set. |

## Behaviour worth knowing

The code behaves as follows in these places, and so does the model:
- **Delete failures.** Deletion uses the one-argument `deleteMessage`, so a failing delete is fatal. It also stops the deletion of later pointers. Deletes are not best-effort or independent.
- **Cleanup after a handler exception.** When the wrapped handler throws, nothing is deleted. Payloads are removed only after a normal return.
- **Malformed pointers.** A marked body whose pointer does not parse is always fatal, with no handler involved.
- **Handler method names.** The failure handler is called through a single `handle(exception, message)` method, not separate fetch and delete callbacks.

## Left out

- The AspectJ machinery (`@Pointcut`, `@Around`, `ProceedingJoinPoint`) and `isHandlerMethod`. `isHandlerMethod` is a boolean input and `pjp.proceed` is a function value.
- Reflection. The `ParameterizedTypeImpl` type-argument lookup becomes a `TargetType` tag. `instantiatedHandler` becomes an injected handler value, so its `RuntimeException` when instantiation fails is not modelled.
- The S3 client, `IoUtils.toUtf8String`, `PayloadS3Pointer.fromJson`/`toJson` and `EventDeserializer`. These are external libraries and network I/O, represented as function values.
- Exceptions other than `S3Exception` and `SdkClientException` from the S3 client. They would propagate unwrapped and are not modelled.
- The `Context` argument of the batch callbacks. It is passed through unchanged and carries no logic here.
- User callbacks are pure functions of their record. Any state they keep between records, or side effects they perform, is not modelled.
- `SqsLargeMessage.Around`: the message list is an array of message values. Two list entries aliasing the same `SQSMessage` object are not modelled.
- A custom failure handler that returns normally. `callS3Gracefully` has no return statement after its catch blocks, so the source defines no continuation. The model ends resolution there with the explicit outcome `NoContinuation`.
- `SqsLargeMessage.DeleteMessageWith`: the two-argument `deleteMessage` calls a three-argument `callS3Gracefully` that does not exist. It is modelled as the same routing with no message attached.
- The interface `MessageExceptionHandler` declares `handleGetObjectFailure`/`handleDeleteObjectFailure`, while `handleFailure` and `NoOpExceptionHandler` use `handle`. The model follows `handle`.
- Null values. Strings, sequences and arrays in the model are never null, so the source's `NullPointerException`s on a null body (`SqsLargeMessageAspect.java:103`), a null message list (`SqsLargeMessageAspect.java:78`) and a null SQS record list (`SQSBatchProcessor.java:16`) are not modelled. A null argument to the advice is an `OtherArg`, which `instanceof` also rejects.
- Logging (`LOG.*`, `System.out.println`).
- `powertools-tracing/.../TracingUtils.java`, the CloudFormation example handler and its test, and the CDK stack are not part of this model. They hold no batch or resolver logic.

## Findings

| source | as written | input that shows it | evidently intended | confidence | as-written member | corrected member |
|---|---|---|---|---|---|---|
| powertools-batch/src/main/java/software/amazon/lambda/powertools/batch2/SQSBatchProcessor.java:15-24 | The response is built with `new SQSBatchResponse()`, whose failure list is left null. The first failing message then calls `add` on null inside the catch block, so a `NullPointerException` escapes `processBatch`. | A batch of one message whose `processItem` throws. | Create the response with an empty failure list, as the Kinesis binding does at line 17. Report the message's id and go on. | medium: depends on `SQSBatchResponse`'s no-argument constructor leaving the list null; that class is not part of this model; not executed | `SqsBatchProcessor.ProcessBatchAsWritten`, `SqsBatchProcessor.SingleFailingMessageEscapesAsWritten` | `SqsBatchProcessor.ProcessBatch` |
