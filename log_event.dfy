/**
  The normalised, immutable event record handed to test code (`LogEvent`). Java's
  nullable references are `Option`s; the constructor's null checks become
  `NewLogEvent`, which fails with a `NullPointerException` instead of building a
  record. Every field of a datatype value is fixed, so repeated reads agree.
*/
module Model {
  import opened Lang
  import opened Engine

  /** `ZoneOffset.UTC`, in seconds. */
  const UTC: int := 0

  /** A `ZonedDateTime`: an instant in epoch milliseconds with the zone offset it is shown at. */
  datatype ZonedDateTime = ZonedDateTime(epochMillis: int, offsetSeconds: int)

  /** `!a.isAfter(b)`: zoned date-times are ordered by their instant. */
  predicate IsBeforeOrEqual(a: ZonedDateTime, b: ZonedDateTime) {
    a.epochMillis <= b.epochMillis
  }

  datatype LogEvent = LogEvent(
    message: Message,
    formattedMessage: string,
    level: string,
    loggerName: Option<string>,
    timeStamp: ZonedDateTime,
    arguments: Option<seq<Obj>>,
    throwable: Option<Obj>,
    diagnosticContext: Option<map<string, string>>)
  {
    /** The format string of the stored message, not its rendered text. */
    function GetMessage(): string { message.format }

    function GetFormattedMessage(): string { formattedMessage }

    function GetLevel(): string { level }

    function GetLoggerName(): Option<string> { loggerName }

    function GetTimeStamp(): ZonedDateTime { timeStamp }

    function GetArguments(): Option<seq<Obj>> { arguments }

    /** `Optional.ofNullable(throwable)`: empty exactly when no throwable was stored. */
    function GetThrowable(): Option<Obj> { throwable }

    function GetDiagnosticContext(): Option<map<string, string>> { diagnosticContext }
  }

  /**
    The `LogEvent` constructor. Message, formatted message, level and time stamp
    must not be null; logger name, arguments, throwable and context are stored as
    given, null included.
  */
  function NewLogEvent(
    message: Option<Message>,
    formattedMessage: Option<string>,
    level: Option<string>,
    loggerName: Option<string>,
    timeStamp: Option<ZonedDateTime>,
    arguments: Option<seq<Obj>>,
    throwable: Option<Obj>,
    diagnosticContext: Option<map<string, string>>): (r: Result<LogEvent, Exception>)
    ensures r.Failure? <==>
              message.None? || formattedMessage.None? || level.None? || timeStamp.None?
    ensures r.Failure? ==> r.error == NullPointerException
    ensures r.Success? ==>
              && r.value.GetMessage() == message.value.format
              && r.value.GetFormattedMessage() == formattedMessage.value
              && r.value.GetLevel() == level.value
              && r.value.GetLoggerName() == loggerName
              && r.value.GetTimeStamp() == timeStamp.value
              && r.value.GetArguments() == arguments
              && r.value.GetThrowable() == throwable
              && r.value.GetDiagnosticContext() == diagnosticContext
  {
    if message.None? || formattedMessage.None? || level.None? || timeStamp.None? then
      Failure(NullPointerException)
    else
      Success(LogEvent(message.value, formattedMessage.value, level.value, loggerName,
                       timeStamp.value, arguments, throwable, diagnosticContext))
  }

  /**
    The record keeps the message object itself: a record built from a message reports that message's format.
    This is a consequence of `NewLogEvent`'s contract, stated here for reference.
  */
  lemma GetMessageIsFormat(m: Message, level: string, ts: ZonedDateTime)
    ensures var r := NewLogEvent(Some(m), Some(m.formattedMessage), Some(level), None, Some(ts), None, None, None);
            r.Success? && r.value.GetMessage() == m.format && r.value.GetFormattedMessage() == m.formattedMessage
  {
  }
}
