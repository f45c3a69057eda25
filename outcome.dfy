/** Turning the transport's callback into the one log update it produces. */
module ResultClassifier {
  import opened Options

  /** Log status values written by the send. */
  const StatusFailed: int := 0
  const StatusSuccess: int := 2

  /** The callback the HTTP client invokes: `onError` with the error's display message, or `onSuccess` with the raw body. */
  datatype Callback = OnError(displayMessage: string) | OnSuccess(response: string)

  datatype Outcome = Outcome(status: int, message: string)

  /** One `updateLogs(logId, status, message)` call. */
  datatype LogEntry = LogEntry(logId: Option<int>, outcome: Outcome)

  /**
   * The classification. `parseOk` gives the `ok` field of the body parsed as a Telegram result
   * (`None` when the field is absent). Only an explicit `ok == true` is a success; the message is
   * the error's display message or the raw body, unchanged.
   */
  function Classify(callback: Callback, parseOk: string -> Option<bool>): (o: Outcome)
    ensures o.status == StatusSuccess || o.status == StatusFailed
    ensures o.status == StatusSuccess <==> callback.OnSuccess? && parseOk(callback.response) == Some(true)
    ensures callback.OnError? ==> o.message == callback.displayMessage
    ensures callback.OnSuccess? ==> o.message == callback.response
  {
    match callback
    case OnError(m) => Outcome(StatusFailed, m)
    case OnSuccess(response) =>
      if parseOk(response) == Some(true) then Outcome(StatusSuccess, response)
      else Outcome(StatusFailed, response)
  }

  /** The logging sink: the sequence of `updateLogs` calls made so far. */
  class LogSink {
    var entries: seq<LogEntry>

    constructor ()
      ensures entries == []
    {
      entries := [];
    }

    /** `SendUtils.updateLogs`: records one call. */
    method UpdateLogs(logId: Option<int>, status: int, message: string)
      modifies this
      ensures entries == old(entries) + [LogEntry(logId, Outcome(status, message))]
    {
      entries := entries + [LogEntry(logId, Outcome(status, message))];
    }
  }

  /** The callback object: each callback makes exactly one `updateLogs` call, carrying its classification. */
  method Deliver(sink: LogSink, logId: Option<int>, callback: Callback, parseOk: string -> Option<bool>)
    modifies sink
    ensures sink.entries == old(sink.entries) + [LogEntry(logId, Classify(callback, parseOk))]
  {
    match callback {
      case OnError(displayMessage) =>
        sink.UpdateLogs(logId, StatusFailed, displayMessage);
      case OnSuccess(response) =>
        var ok := parseOk(response);
        if ok == Some(true) {
          sink.UpdateLogs(logId, StatusSuccess, response);
        } else {
          sink.UpdateLogs(logId, StatusFailed, response);
        }
    }
  }
}
