/** The SQS binding of the batch engine: records are `SQSEvent` messages, a failure entry
    carries the message's `messageId`, and the response is an `SQSBatchResponse`. */
module SqsBatchProcessor {
  import opened LambdaEvents
  import BP = BatchProcessor

  datatype BatchItemFailure = BatchItemFailure(itemIdentifier: string)

  datatype SqsBatchResponse = SqsBatchResponse(batchItemFailures: seq<BatchItemFailure>)

  /** The engine's view of an SQS processor: ids are message ids, raw messages go to
      `processItem(SQSMessage, Context)`, decoded bodies to `processItem(ITEM, Context)`. */
  function SqsBinding<I>(processMessage: SqsMessage -> Completion, decode: SqsMessage -> Outcome<I>,
                         processItem: I -> Completion): BP.Binding<SqsMessage, I>
  {
    BP.Binding((m: SqsMessage) => m.messageId, processMessage, decode, processItem)
  }

  /** The default `processItem(SQSMessage, Context)` only logs the message id. */
  function DefaultProcessMessage(m: SqsMessage): Completion
  {
    Returned
  }

  /** Builds the platform response from the failed message ids, in order. */
  function Respond(ids: seq<string>): (response: SqsBatchResponse)
    ensures |response.batchItemFailures| == |ids|
    ensures forall j :: 0 <= j < |ids| ==> response.batchItemFailures[j].itemIdentifier == ids[j]
  {
    SqsBatchResponse(seq(|ids|, j requires 0 <= j < |ids| => BatchItemFailure(ids[j])))
  }

  /** `processBatch` with its response list created empty: the response lists the id of each
      message whose decoding or processing threw, in message order, and nothing else. */
  method ProcessBatch<I>(event: seq<SqsMessage>, target: BP.TargetType, processMessage: SqsMessage -> Completion,
                         decode: SqsMessage -> Outcome<I>, processItem: I -> Completion)
    returns (response: SqsBatchResponse)
    ensures var ps := BP.FailedPositions(SqsBinding(processMessage, decode, processItem), target, event);
      |response.batchItemFailures| == |ps| &&
      forall j :: 0 <= j < |ps| ==> response.batchItemFailures[j] == BatchItemFailure(event[ps[j]].messageId)
  {
    var failures, _ := BP.ProcessBatch(event, target, SqsBinding(processMessage, decode, processItem));
    response := Respond(failures);
  }

  /** With the default raw callback in pass-through mode nothing can fail, so the response is empty. */
  lemma DefaultPassThroughReportsNoFailure<I>(event: seq<SqsMessage>, decode: SqsMessage -> Outcome<I>, processItem: I -> Completion)
    ensures BP.FailureIds(SqsBinding(DefaultProcessMessage, decode, processItem), BP.RawRecord, event) == []
  {
    BP.NoFailuresIffAllSucceed(SqsBinding(DefaultProcessMessage, decode, processItem), BP.RawRecord, event);
  }

  /** How `processBatch` as written ends: `new SQSBatchResponse()` leaves the failure list null, so
      it either returns with that null list or throws `NullPointerException` from its catch block. */
  datatype AsWrittenResult = RespondedWithNullList | NullPointerEscaped(atMessage: nat)

  /** `processBatch` as written: the first failing message's `add` on the null list throws out of the
      loop; later messages are never attempted. */
  method ProcessBatchAsWritten<I>(event: seq<SqsMessage>, target: BP.TargetType, processMessage: SqsMessage -> Completion,
                                  decode: SqsMessage -> Outcome<I>, processItem: I -> Completion)
    returns (result: AsWrittenResult, ghost attempted: nat)
    ensures var ps := BP.FailedPositions(SqsBinding(processMessage, decode, processItem), target, event);
      (ps == [] ==> result == RespondedWithNullList && attempted == |event|) &&
      (ps != [] ==> result == NullPointerEscaped(ps[0]) && attempted == ps[0] + 1)
  {
    var b := SqsBinding(processMessage, decode, processItem);
    var passThrough := target == BP.RawRecord;
    for i := 0 to |event|
      invariant BP.FailedPositions(b, target, event[..i]) == []
    {
      var message := event[i];
      var failed: bool;
      if passThrough {
        failed := processMessage(message).Threw?;
      } else {
        var decoded := decode(message);
        failed := decoded.Raised? || processItem(decoded.value).Threw?;
      }
      assert event[..i + 1][..i] == event[..i];
      assert failed == BP.Failed(BP.AttemptOf(b, target, event[i]));
      if failed {
        // `response.getBatchItemFailures()` is still null here.
        FirstFailureLeads(b, target, event, i);
        return NullPointerEscaped(i), i + 1;
      }
    }
    assert event[..|event|] == event;
    return RespondedWithNullList, |event|;
  }

  /** When the records before position i do not fail and record i does, i heads the failure list. */
  lemma {:induction false} FirstFailureLeads<R, I>(b: BP.Binding<R, I>, target: BP.TargetType, records: seq<R>, i: nat)
    requires i < |records|
    requires BP.FailedPositions(b, target, records[..i]) == []
    requires BP.Failed(BP.AttemptOf(b, target, records[i]))
    ensures BP.FailedPositions(b, target, records) != []
    ensures BP.FailedPositions(b, target, records)[0] == i
    decreases |records|
  {
    var n := |records| - 1;
    if n == i {
      assert records[..n] == records[..i];
    } else {
      assert records[..n][..i] == records[..i];
      FirstFailureLeads(b, target, records[..n], i);
    }
  }

  /** One message whose processing throws: the corrected processor reports its id, while the
      processor as written throws `NullPointerException` at that message (position 0). */
  lemma SingleFailingMessageEscapesAsWritten()
    ensures var m := SqsMessage("m1", "rh", "", "plain text");
      var b := SqsBinding(_ => Threw(Throwable("java.lang.IllegalStateException", "")),
                          (_: SqsMessage) => Raised(Throwable("", "")), (_: int) => Returned);
      BP.FailedPositions(b, BP.RawRecord, [m]) == [0] &&
      Respond(BP.FailureIds(b, BP.RawRecord, [m])) == SqsBatchResponse([BatchItemFailure("m1")])
  {
    var m := SqsMessage("m1", "rh", "", "plain text");
    var b := SqsBinding(_ => Threw(Throwable("java.lang.IllegalStateException", "")),
                        (_: SqsMessage) => Raised(Throwable("", "")), (_: int) => Returned);
    assert [m][..0] == [];
  }
}
