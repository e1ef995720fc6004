/** The engine shared by the SQS and Kinesis batch processors: every record is dispatched,
    raw or decoded, to user logic; any throwable is caught at the record boundary and turns
    into one failure entry carrying that record's id. */
module BatchProcessor {
  import opened LambdaEvents

  /** The item class the processor was declared with, resolved once per call:
      the raw record class itself (pass-through), or some other class the body is decoded into. */
  datatype TargetType = RawRecord | DecodedItem

  /** What a binding supplies: how to read a record's id, the user logic for raw records,
      the decoder (`EventDeserializer.extractDataFrom(record).as(bodyClass)`) and the user logic for items. */
  datatype Binding<!R, !I> = Binding(
    id: R -> string,
    processRaw: R -> Completion,
    decode: R -> Outcome<I>,
    processItem: I -> Completion)

  /** What happened to one record: which callback saw it and how that call ended. */
  datatype Attempt<R, I> =
    | RawAttempt(record: R, completion: Completion)
    | DecodeFailure(record: R, thrown: Throwable)
    | ItemAttempt(record: R, item: I, completion: Completion)

  /** The dispatch of one record: pass-through hands the raw record over; otherwise the record
      is decoded and the decoded item is handed over, unless decoding throws. */
  function AttemptOf<R, I>(b: Binding<R, I>, target: TargetType, r: R): (a: Attempt<R, I>)
    ensures a.record == r
    ensures a.RawAttempt? <==> target == RawRecord
    ensures a.RawAttempt? ==> a.completion == b.processRaw(r)
    ensures a.DecodeFailure? <==> !target.RawRecord? && b.decode(r).Raised?
    ensures a.ItemAttempt? ==> b.decode(r) == Value(a.item) && a.completion == b.processItem(a.item)
  {
    if target == RawRecord then RawAttempt(r, b.processRaw(r))
    else match b.decode(r)
      case Raised(t) => DecodeFailure(r, t)
      case Value(item) => ItemAttempt(r, item, b.processItem(item))
  }

  /** A record fails when decoding it throws or the user logic it reaches throws. */
  predicate Failed<R, I>(a: Attempt<R, I>)
  {
    match a
    case RawAttempt(_, c) => c.Threw?
    case DecodeFailure(_, _) => true
    case ItemAttempt(_, _, c) => c.Threw?
  }

  /** The positions of the failing records, in source order. */
  function FailedPositions<R, I>(b: Binding<R, I>, target: TargetType, records: seq<R>): (ps: seq<nat>)
    ensures |ps| <= |records|
    ensures forall j :: 0 <= j < |ps| ==> ps[j] < |records|
    decreases |records|
  {
    if records == [] then []
    else
      var n := |records| - 1;
      FailedPositions(b, target, records[..n]) + (if Failed(AttemptOf(b, target, records[n])) then [n] else [])
  }

  /** The ids of the failing records, in source order. */
  function FailureIds<R, I>(b: Binding<R, I>, target: TargetType, records: seq<R>): seq<string>
  {
    var ps := FailedPositions(b, target, records);
    seq(|ps|, j requires 0 <= j < |ps| => b.id(records[ps[j]]))
  }

  /** A position is listed exactly when its record fails, and each position at most once
      (the list is strictly increasing). */
  lemma {:induction false} FailedPositionsExact<R, I>(b: Binding<R, I>, target: TargetType, records: seq<R>)
    ensures forall k :: 0 <= k < |records| ==>
      (k in FailedPositions(b, target, records) <==> Failed(AttemptOf(b, target, records[k])))
    ensures forall i, j :: 0 <= i < j < |FailedPositions(b, target, records)| ==>
      FailedPositions(b, target, records)[i] < FailedPositions(b, target, records)[j]
    decreases |records|
  {
    if records != [] {
      var n := |records| - 1;
      var init := records[..n];
      FailedPositionsExact(b, target, init);
      forall k | 0 <= k < n ensures records[k] == init[k] { }
    }
  }

  /** No failure entry at all exactly when every record is processed without a throwable. */
  lemma NoFailuresIffAllSucceed<R, I>(b: Binding<R, I>, target: TargetType, records: seq<R>)
    ensures FailureIds(b, target, records) == [] <==>
      forall k :: 0 <= k < |records| ==> !Failed(AttemptOf(b, target, records[k]))
  {
    FailedPositionsExact(b, target, records);
    var ps := FailedPositions(b, target, records);
    if ps != [] {
      assert ps[0] in ps;
    }
  }

  /** The engine: each record is attempted once, in source order; a throwable from decoding
      or from user logic appends the record's id and processing goes on with the next record.
      No throwable leaves this method. */
  method ProcessBatch<R, I>(records: seq<R>, target: TargetType, b: Binding<R, I>)
    returns (failures: seq<string>, ghost attempts: seq<Attempt<R, I>>)
    ensures |attempts| == |records|
    ensures forall k :: 0 <= k < |records| ==> attempts[k] == AttemptOf(b, target, records[k])
    ensures failures == FailureIds(b, target, records)
  {
    // The target class is looked at once, before the loop.
    var passThrough := target == RawRecord;
    failures := [];
    attempts := [];
    ghost var positions: seq<nat> := [];
    for i := 0 to |records|
      invariant |attempts| == i
      invariant forall k :: 0 <= k < i ==> attempts[k] == AttemptOf(b, target, records[k])
      invariant positions == FailedPositions(b, target, records[..i])
      invariant |failures| == |positions|
      invariant forall j :: 0 <= j < |positions| ==> positions[j] < i && failures[j] == b.id(records[positions[j]])
    {
      var record := records[i];
      var failed: bool;
      if passThrough {
        var c := b.processRaw(record);
        failed := c.Threw?;
        attempts := attempts + [RawAttempt(record, c)];
      } else {
        var decoded := b.decode(record);
        if decoded.Raised? {
          failed := true;
          attempts := attempts + [DecodeFailure(record, decoded.thrown)];
        } else {
          var c := b.processItem(decoded.value);
          failed := c.Threw?;
          attempts := attempts + [ItemAttempt(record, decoded.value, c)];
        }
      }
      assert records[..i + 1][..i] == records[..i];
      assert failed == Failed(AttemptOf(b, target, records[i]));
      if failed {
        failures := failures + [b.id(record)];
        positions := positions + [i];
      }
    }
    assert records[..|records|] == records;
  }
}
