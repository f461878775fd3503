/** The message log: one row per message sent or received. The database
    table is modelled as an append-only sequence whose order is creation
    order (the order of the `sent_at` timestamps). */
module MessageLog {
  import opened Wrappers
  import opened Media

  /** One log row, with the columns the views write. `customerName` is
      `None` where the views pass Python's `None`; `contentType` is `None`
      where the writer leaves the column at its default. */
  datatype LogRecord = LogRecord(
    customerName: Option<string>,
    mobile: string,
    templateName: string,
    text: string,
    status: string,
    messageType: string,
    messageId: string,
    contentType: Option<string>,
    media: Option<MediaFile>)

  type Log = seq<LogRecord>

  /** The mobile column of every row, in log order. */
  function Mobiles(log: Log): (ms: seq<string>)
    ensures |ms| == |log|
    ensures forall i :: 0 <= i < |log| ==> ms[i] == log[i].mobile
  {
    seq(|log|, i requires 0 <= i < |log| => log[i].mobile)
  }
}
