/**
  Client scenarios that replay the repository's tests against the contracts of the
  capture session: each one is proved from the specifications alone. The demo
  service logs through `Deliver`, the stand-in for Log4j's routing.
*/
module Scenarios {
  import opened Lang
  import opened Engine
  import opened Model
  import Mapper
  import opened Captor

  const ServiceLoggerName: string := "nl.altindag.log.service.apache.ServiceWithApacheLog4j2"

  /** The five texts the demo service logs, one per level. */
  datatype Texts = Texts(info: string, warn: string, error: string, trace: string, debug: string)

  /** A plain message at `level`, logged by the demo service at time `now`. */
  function ServiceEvent(text: string, level: Level, now: int): NativeEvent {
    NativeEvent(Message(text, text, None), level, Some(ServiceLoggerName), now, None, map[])
  }

  /** What the appender keeps of one event routed through a logger at `threshold`. */
  function Kept(threshold: Level, a: ListAppender, e: NativeEvent): seq<NativeEvent>
    reads a
  {
    if Routes(threshold, a, e.level) then [e] else []
  }

  /** The demo service's `sayHello`: INFO, WARN, ERROR, TRACE, then DEBUG when DEBUG is enabled. */
  method SayHello(logger: Logger, t: Texts, now: int)
    modifies if AppenderName in logger.appenders then {logger.appenders[AppenderName]} else {}
    ensures AppenderName in logger.appenders ==>
              var a := logger.appenders[AppenderName];
              var l := logger.level;
              && a.filters == old(a.filters) && a.started == old(a.started)
              && a.events == old(a.events)
                             + Kept(l, a, ServiceEvent(t.info, INFO, now))
                             + Kept(l, a, ServiceEvent(t.warn, WARN, now))
                             + Kept(l, a, ServiceEvent(t.error, ERROR, now))
                             + Kept(l, a, ServiceEvent(t.trace, TRACE, now))
                             + (if IsEnabled(l, DEBUG) then Kept(l, a, ServiceEvent(t.debug, DEBUG, now)) else [])
  {
    Deliver(logger, ServiceEvent(t.info, INFO, now));
    Deliver(logger, ServiceEvent(t.warn, WARN, now));
    Deliver(logger, ServiceEvent(t.error, ERROR, now));
    Deliver(logger, ServiceEvent(t.trace, TRACE, now));
    if IsEnabled(logger.level, DEBUG) {
      Deliver(logger, ServiceEvent(t.debug, DEBUG, now));
    }
  }

  /** An INFO override keeps INFO, WARN and ERROR; after clearing, a DEBUG override adds DEBUG. */
  method CaptureWithDebugEnabled(t: Texts, now: int)
  {
    var table := new LevelTable();
    var logger := new Logger(ServiceLoggerName, ERROR, map[ConsoleAppenderName := ERROR]);
    var r := LogCaptor.ForClass(ServiceLoggerName, Log4jCoreLogger, logger, table);
    var captor := r.value;
    captor.SetLogLevelToInfo();
    SayHello(logger, t, now);
    assert captor.listAppender.events
           == [ServiceEvent(t.info, INFO, now), ServiceEvent(t.warn, WARN, now), ServiceEvent(t.error, ERROR, now)];
    assert captor.GetLogs() == [t.info, t.warn, t.error];

    ClearThenCaptureDebug(captor, t, now);
  }

  /** Second half of the scenario above, on a session whose appender is attached, started and unfiltered. */
  method ClearThenCaptureDebug(captor: LogCaptor, t: Texts, now: int)
    requires AppenderName in captor.logger.appenders
    requires captor.logger.appenders[AppenderName] == captor.listAppender
    requires captor.listAppender.started && captor.listAppender.filters == []
    modifies captor.listAppender, captor.logger
  {
    captor.ClearLogs();
    captor.SetLogLevelToDebug();
    SayHello(captor.logger, t, now);
    var events := captor.listAppender.events;
    assert events == [ServiceEvent(t.info, INFO, now), ServiceEvent(t.warn, WARN, now),
                      ServiceEvent(t.error, ERROR, now), ServiceEvent(t.debug, DEBUG, now)];
    assert captor.GetLogs() == [t.info, t.warn, t.error, t.debug];
    OneEventAtLevel(events, DEBUG, 3);
    assert captor.GetDebugLogs() == [t.debug];
  }

  /** With logging disabled nothing is captured. */
  method DisabledCapturesNothing(t: Texts, now: int)
  {
    var table := new LevelTable();
    var logger := new Logger(ServiceLoggerName, INFO, map[]);
    var r := LogCaptor.ForClass(ServiceLoggerName, Log4jSlf4jAdapter, logger, table);
    var captor := r.value;
    captor.DisableLogs();
    assert logger.level == OFF && logger.appenders[AppenderName] == captor.listAppender;
    SayHello(logger, t, now);
    assert captor.listAppender.events == [];
    assert captor.GetLogs() == [];
  }

  /** A level-match filter for INFO that denies the rest leaves only INFO records. */
  method FilterInfoMessages(t: Texts, now: int)
  {
    var table := new LevelTable();
    var logger := new Logger(ServiceLoggerName, INFO, map[]);
    var filter := new Filter.LevelMatch(INFO, NEUTRAL, DENY);
    var r := LogCaptor.ForClass(ServiceLoggerName, Log4jCoreLogger, logger, table);
    var captor := r.value;
    captor.AddFilter(filter);
    captor.SetLogLevelToTrace();
    assert captor.listAppender.filters == [filter] && [filter][1..] == [];
    assert CompositeDecision([filter], INFO) == NEUTRAL;
    SayHello(logger, t, now);
    assert captor.listAppender.events == [ServiceEvent(t.info, INFO, now)];
    var records := captor.GetLogEvents();
    assert |records| == 1 && records[0].GetLevel() == "INFO";
    assert ToLevel(records[0].GetLevel()) == INFO;
  }

  /** Attaching leaves exactly one appender, named "log-captor"; closing, once or twice, detaches it. */
  method CloseDetachesAppender(name: string)
  {
    var table := new LevelTable();
    var logger := new Logger(name, INFO, map[ConsoleAppenderName := INFO]);
    var r := LogCaptor.ForName(name, Log4jCoreLogger, logger, table);
    var captor := r.value;
    assert logger.appenders == map[AppenderName := captor.listAppender];
    captor.Close();
    assert logger.appenders == map[] && !captor.listAppender.started;
    captor.Close();
    assert logger.appenders == map[] && !captor.listAppender.started;
  }

  /**
    A second session on the same logger replaces the first one's appender; since a
    logger removes appenders by name, closing the first session then detaches the
    second one's appender.
  */
  method StaleCloseDetachesNewerSession(name: string)
  {
    var table := new LevelTable();
    var logger := new Logger(name, INFO, map[]);
    var r1 := LogCaptor.ForName(name, Log4jCoreLogger, logger, table);
    var first := r1.value;
    var r2 := LogCaptor.ForName(name, Log4jCoreLogger, logger, table);
    var second := r2.value;
    assert logger.appenders == map[AppenderName := second.listAppender];
    first.Close();
    assert AppenderName !in logger.appenders && second.listAppender.started;
  }

  /** An unsupported SLF4J implementation fails construction and attaches nothing. */
  method UnsupportedBackendFails()
  {
    var table := new LevelTable();
    var logger := new Logger(RootLoggerName, INFO, map[]);
    var found := "ch.qos.logback.classic.Logger";
    var r := LogCaptor.ForRoot(Other(found), logger, table);
    assert r.Failure? && r.error.IllegalArgumentException?;
    MismatchMessageNamesBothClasses(found);
    assert Mentions(r.error.message, "[" + ExpectedLoggerClass + "]");
    assert Mentions(r.error.message, "[" + found + "]");
    assert logger.appenders == map[] && table.levels == map[];
  }

  /** Overrides in one session survive its close, and a later session's reset restores the original level. */
  method ResetRestoresFirstSnapshot(name: string)
  {
    var table := new LevelTable();
    var logger := new Logger(name, WARN, map[]);
    var r1 := LogCaptor.ForName(name, Log4jCoreLogger, logger, table);
    var first := r1.value;
    first.SetLogLevelToTrace();
    first.Close();
    assert logger.level == TRACE;
    var r2 := LogCaptor.ForName(name, Log4jCoreLogger, logger, table);
    var second := r2.value;
    assert table.levels[name] == WARN;
    second.SetLogLevelToInfo();
    second.ResetLogLevel();
    assert logger.level == WARN;
  }

  /** A parameterised message keeps its format, its rendered text and its argument. */
  lemma KeyboardMessageKeepsFormat(enter: Obj, now: int)
    ensures var e := NativeEvent(
              Message("Keyboard not responding. Press {} key to continue...",
                      "Keyboard not responding. Press Enter key to continue...", Some([enter])),
              INFO, Some("nl.altindag.log.service.slfj4.ServiceWithSlf4j"), now, None, map[]);
            var r := Mapper.Apply(e);
            && r.GetMessage() == "Keyboard not responding. Press {} key to continue..."
            && r.GetFormattedMessage() == "Keyboard not responding. Press Enter key to continue..."
            && r.GetArguments() == Some([enter])
  {
  }
}
