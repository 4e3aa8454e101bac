/**
  `LogEventMapper.apply`: a total, side-effect-free translation of a native Log4j
  event into the normalised record.
*/
module Mapper {
  import opened Lang
  import opened Engine
  import opened Model

  /** Maps a native event to a `LogEvent`; the constructor's null checks always pass. */
  function Apply(e: NativeEvent): (r: LogEvent)
    ensures r.GetMessage() == e.message.format
    ensures r.GetFormattedMessage() == e.message.formattedMessage
    ensures r.GetLevel() == LevelName(e.level)
    ensures r.GetLoggerName() == e.loggerName
    ensures r.GetTimeStamp().epochMillis == e.timeMillis && r.GetTimeStamp().offsetSeconds == UTC
    ensures r.GetArguments().Some?
    ensures e.message.parameters.Some? ==> r.GetArguments().value == e.message.parameters.value
    ensures e.message.parameters.None? ==> r.GetArguments().value == []
    ensures r.GetThrowable().Some? <==> e.thrown.Some?
    ensures e.thrown.Some? ==> r.GetThrowable().value == e.thrown.value
    ensures r.GetDiagnosticContext() == Some(e.contextData)
  {
    var message := e.message;
    var timeStamp := ZonedDateTime(e.timeMillis, UTC);
    var arguments := e.message.parameters.GetOr([]);
    var created := NewLogEvent(Some(message), Some(message.formattedMessage), Some(LevelName(e.level)),
                               e.loggerName, Some(timeStamp), Some(arguments), e.thrown,
                               Some(e.contextData));
    created.value
  }

  /** Reads a native event back out of a record that carries a context map. */
  function Unmap(r: LogEvent): NativeEvent
    requires r.diagnosticContext.Some?
  {
    NativeEvent(r.message, ToLevel(r.level), r.loggerName, r.timeStamp.epochMillis,
                r.throwable, r.diagnosticContext.value)
  }

  /** Mapping loses nothing: the native event can be read back from its record. */
  lemma UnmapInvertsApply(e: NativeEvent)
    ensures Apply(e).diagnosticContext.Some? && Unmap(Apply(e)) == e
  {
    ToLevelInvertsLevelName(e.level);
  }

  /** Hence distinct native events map to distinct records. */
  lemma ApplyInjective(e1: NativeEvent, e2: NativeEvent)
    ensures Apply(e1) == Apply(e2) ==> e1 == e2
  {
    UnmapInvertsApply(e1);
    UnmapInvertsApply(e2);
  }

  /** Time stamps keep the order of the native epoch-millisecond times. */
  lemma TimeStampMonotone(e1: NativeEvent, e2: NativeEvent)
    requires e1.timeMillis <= e2.timeMillis
    ensures IsBeforeOrEqual(Apply(e1).GetTimeStamp(), Apply(e2).GetTimeStamp())
  {
  }

  /**
    The record's context is the event's context data at mapping time: an event that differs only in its
    context maps to a record that differs only in its context, and differs whenever the context does.
  */
  lemma ContextIsSnapshot(e: NativeEvent, later: map<string, string>)
    ensures Apply(e).GetDiagnosticContext() == Some(e.contextData)
    ensures Apply(e.(contextData := later)).GetDiagnosticContext() == Some(later)
    ensures Apply(e.(contextData := later)).GetFormattedMessage() == Apply(e).GetFormattedMessage()
    ensures Apply(e.(contextData := later)) == Apply(e).(diagnosticContext := Some(later))
    ensures later != e.contextData ==> Apply(e.(contextData := later)) != Apply(e)
  {
  }
}
