/** Shapes shared by the batch processors and the large-payload resolver:
    the event records a Lambda function receives and the ways a Java call can end. */
module LambdaEvents {

  datatype Option<+T> = None | Some(value: T)

  /** A Java throwable, identified by its class name and message (stack and cause chain are not modelled). */
  datatype Throwable = Throwable(className: string, message: string)

  /** How a call to a `void` method ended: it returned normally, or it threw. */
  datatype Completion = Returned | Threw(thrown: Throwable)

  /** How a call to a value-returning method ended. */
  datatype Outcome<+T> = Value(value: T) | Raised(thrown: Throwable)

  /** One message of an `SQSEvent`. Only `body` is ever written (by the large-payload resolver);
      the other attributes stand for everything else the message carries. */
  datatype SqsMessage = SqsMessage(messageId: string, receiptHandle: string, md5OfBody: string, body: string)

  /** One record of a `KinesisEvent`: its event id, sequence number and data blob. */
  datatype KinesisEventRecord = KinesisEventRecord(eventID: string, sequenceNumber: string, data: seq<bv8>)
}
