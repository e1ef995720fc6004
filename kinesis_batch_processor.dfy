/** The Kinesis binding of the batch engine: records are `KinesisEvent` records, a failure entry
    carries the record's `eventID`, and the response is a `StreamsEventResponse` whose failure
    list is created empty before the loop. */
module KinesisBatchProcessor {
  import opened LambdaEvents
  import BP = BatchProcessor

  datatype BatchItemFailure = BatchItemFailure(itemIdentifier: string)

  datatype StreamsEventResponse = StreamsEventResponse(batchItemFailures: seq<BatchItemFailure>)

  /** The engine's view of a Kinesis processor: ids are event ids, raw records go to
      `processRecord`, decoded data to `processItem`. */
  function KinesisBinding<I>(processRecord: KinesisEventRecord -> Completion, decode: KinesisEventRecord -> Outcome<I>,
                             processItem: I -> Completion): BP.Binding<KinesisEventRecord, I>
  {
    BP.Binding((r: KinesisEventRecord) => r.eventID, processRecord, decode, processItem)
  }

  /** The default `processRecord` only logs the event id. */
  function DefaultProcessRecord(r: KinesisEventRecord): Completion
  {
    Returned
  }

  /** `processBatch`: the response lists the event id of each record whose decoding or processing
      threw, in record order, and nothing else; no throwable escapes. */
  method ProcessBatch<I>(event: seq<KinesisEventRecord>, target: BP.TargetType,
                         processRecord: KinesisEventRecord -> Completion,
                         decode: KinesisEventRecord -> Outcome<I>, processItem: I -> Completion)
    returns (response: StreamsEventResponse)
    ensures var ps := BP.FailedPositions(KinesisBinding(processRecord, decode, processItem), target, event);
      |response.batchItemFailures| == |ps| &&
      forall j :: 0 <= j < |ps| ==> response.batchItemFailures[j] == BatchItemFailure(event[ps[j]].eventID)
  {
    var b := KinesisBinding(processRecord, decode, processItem);
    var failures, _ := BP.ProcessBatch(event, target, b);
    response := StreamsEventResponse(seq(|failures|, j requires 0 <= j < |failures| => BatchItemFailure(failures[j])));
  }

  /** Failure attribution for a stream: record k's event id is reported exactly when record k fails,
      the reported positions ascend, and a batch where every record succeeds reports nothing. */
  lemma FailureAttribution<I>(event: seq<KinesisEventRecord>, target: BP.TargetType,
                              processRecord: KinesisEventRecord -> Completion,
                              decode: KinesisEventRecord -> Outcome<I>, processItem: I -> Completion)
    ensures var b := KinesisBinding(processRecord, decode, processItem);
      var ps := BP.FailedPositions(b, target, event);
      (forall k :: 0 <= k < |event| ==> (k in ps <==> BP.Failed(BP.AttemptOf(b, target, event[k])))) &&
      (forall i, j :: 0 <= i < j < |ps| ==> ps[i] < ps[j]) &&
      ((forall k :: 0 <= k < |event| ==> !BP.Failed(BP.AttemptOf(b, target, event[k]))) ==> ps == [])
  {
    var b := KinesisBinding(processRecord, decode, processItem);
    BP.FailedPositionsExact(b, target, event);
    BP.NoFailuresIffAllSucceed(b, target, event);
  }

  /** With the default `processRecord` in pass-through mode nothing can fail. */
  lemma DefaultPassThroughReportsNoFailure<I>(event: seq<KinesisEventRecord>, decode: KinesisEventRecord -> Outcome<I>,
                                              processItem: I -> Completion)
    ensures BP.FailureIds(KinesisBinding(DefaultProcessRecord, decode, processItem), BP.RawRecord, event) == []
  {
    BP.NoFailuresIffAllSucceed(KinesisBinding(DefaultProcessRecord, decode, processItem), BP.RawRecord, event);
  }
}
