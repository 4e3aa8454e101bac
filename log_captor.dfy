/**
  The capture session (`LogCaptor`): it attaches a fresh list appender named
  "log-captor" to a logger, snapshots the logger's level into a process-wide table
  (first writer wins), answers queries over the captured events, overrides and
  restores the logger's level, clears the capture and detaches on close.
*/
module Captor {
  import opened Lang
  import opened Engine
  import opened Model
  import Mapper

  /** `LogCaptor.APPENDER_NAME`. */
  const AppenderName: string := "log-captor"

  /** `LogManager.ROOT_LOGGER_NAME`. */
  const RootLoggerName: string := ""

  /** The configuration appender that a level override re-routes. */
  const ConsoleAppenderName: string := "Console"

  /** The class name an SLF4J logger must have for capture to work. */
  const ExpectedLoggerClass: string := "org.apache.logging.log4j.core.Logger"

  /** The SLF4J logger implementation found for the logger name. */
  datatype Slf4jLogger =
    | Log4jCoreLogger            // an org.apache.logging.log4j.core.Logger
    | Log4jSlf4jAdapter          // an org.apache.logging.slf4j.Log4jLogger
    | Other(className: string)   // any other implementation, by class name

  const MismatchPrefix: string := "SLF4J Logger implementation should be of the type "
  const MismatchMiddle: string := " but found "
  const MismatchSuffix: string :=
    ". Please remove any other SLF4J implementations during the test phase from your classpath of your project. "
    + "See here for an example configurations: https://github.com/Hakky54/log-captor#using-log-captor-alongside-with-other-logging-libraries"

  /** The fixed text before the found class name, and the fixed text after it. */
  const MismatchLead: string := MismatchPrefix + "[" + ExpectedLoggerClass + "]" + MismatchMiddle + "["
  const MismatchTail: string := "]" + MismatchSuffix

  /**
    The message of the exception raised for an unsupported SLF4J implementation:
    the found class name sits between two fixed texts that do not depend on it.
  */
  function MismatchMessage(found: string): (r: string)
    ensures |r| == |MismatchLead| + |found| + |MismatchTail|
    ensures r[..|MismatchLead|] == MismatchLead
    ensures OccursAt(r, found, |MismatchLead|)
    ensures r[|MismatchLead| + |found|..] == MismatchTail
  {
    var r := MismatchPrefix + "[" + ExpectedLoggerClass + "]" + MismatchMiddle + "[" + found + "]" + MismatchSuffix;
    assert r == MismatchLead + found + MismatchTail;
    r
  }

  /** The message determines the class that was found: distinct implementations give distinct messages. */
  lemma {:induction false} MismatchMessageDeterminesClass(a: string, b: string)
    requires MismatchMessage(a) == MismatchMessage(b)
    ensures a == b
  {
    var m := MismatchMessage(a);
    assert |a| == |b|;
    assert a == m[|MismatchLead|..|MismatchLead| + |a|] == b;
  }

  /** `part` occurs in `s` starting at position `i`. */
  predicate OccursAt(s: string, part: string, i: int) {
    0 <= i <= |s| - |part| && s[i..i + |part|] == part
  }

  /** `part` occurs in `s`. */
  predicate Mentions(s: string, part: string) {
    exists i :: 0 <= i <= |s| - |part| && OccursAt(s, part, i)
  }

  /** A message built like the mismatch message names both classes, whatever the surrounding text. */
  lemma {:induction false} BracketedNamesOccur(prefix: string, expected: string, middle: string, found: string, suffix: string)
    ensures var m := prefix + "[" + expected + "]" + middle + "[" + found + "]" + suffix;
            Mentions(m, "[" + expected + "]") && Mentions(m, "[" + found + "]")
  {
    var m := prefix + "[" + expected + "]" + middle + "[" + found + "]" + suffix;
    var e := "[" + expected + "]";
    var f := "[" + found + "]";
    assert m == prefix + e + (middle + f + suffix);
    assert m[|prefix|..|prefix| + |e|] == e;
    assert OccursAt(m, e, |prefix|);
    assert m == (prefix + e + middle) + f + suffix;
    assert m[|prefix + e + middle|..|prefix + e + middle| + |f|] == f;
    assert OccursAt(m, f, |prefix + e + middle|);
  }

  /** The message names both the expected and the found class, each in brackets. */
  lemma MismatchMessageNamesBothClasses(found: string)
    ensures Mentions(MismatchMessage(found), "[" + ExpectedLoggerClass + "]")
    ensures Mentions(MismatchMessage(found), "[" + found + "]")
  {
    BracketedNamesOccur(MismatchPrefix, ExpectedLoggerClass, MismatchMiddle, found, MismatchSuffix);
  }

  // ---------------------------------------------------------------------------
  // Queries: the stream pipelines of getLogs, getLogs(Level) and getLogEvents.

  /** The formatted text of every event, in capture order. */
  function Formatted(events: seq<NativeEvent>): (r: seq<string>)
    ensures |r| == |events|
    ensures forall i :: 0 <= i < |events| ==> r[i] == events[i].message.formattedMessage
  {
    if events == [] then []
    else Formatted(events[..|events| - 1]) + [events[|events| - 1].message.formattedMessage]
  }

  /** The positions of the events at level `l`, ascending: exactly those positions and no others. */
  function LevelIndices(events: seq<NativeEvent>, l: Level): (idx: seq<nat>)
    ensures forall i :: 0 <= i < |idx| ==> idx[i] < |events| && events[idx[i]].level == l
    ensures forall i, j :: 0 <= i < j < |idx| ==> idx[i] < idx[j]
    ensures forall k :: 0 <= k < |events| && events[k].level == l ==> k in idx
  {
    if events == [] then []
    else
      var last := |events| - 1;
      LevelIndices(events[..last], l) + (if events[last].level == l then [last] else [])
  }

  /** The events at level `l`, in capture order (`filter(e -> e.getLevel() == level)`). */
  function OfLevel(events: seq<NativeEvent>, l: Level): (r: seq<NativeEvent>)
    ensures var idx := LevelIndices(events, l);
            |r| == |idx| && forall i :: 0 <= i < |idx| ==> r[i] == events[idx[i]]
  {
    if events == [] then []
    else
      var last := |events| - 1;
      OfLevel(events[..last], l) + (if events[last].level == l then [events[last]] else [])
  }

  /** `r` is the formatted text of exactly the events at level `l`, in capture order. */
  ghost predicate ExactlyAtLevel(r: seq<string>, events: seq<NativeEvent>, l: Level) {
    var idx := LevelIndices(events, l);
    |r| == |idx| && forall i :: 0 <= i < |idx| ==> r[i] == events[idx[i]].message.formattedMessage
  }

  /** A level met by no captured event yields no positions. */
  lemma {:induction false} NoEventAtLevel(events: seq<NativeEvent>, l: Level)
    requires forall j :: 0 <= j < |events| ==> events[j].level != l
    ensures LevelIndices(events, l) == []
  {
    if events != [] {
      NoEventAtLevel(events[..|events| - 1], l);
    }
  }

  /** A level met by exactly one captured event yields exactly that event's text. */
  lemma {:induction false} OneEventAtLevel(events: seq<NativeEvent>, l: Level, k: nat)
    requires k < |events| && events[k].level == l
    requires forall j :: 0 <= j < |events| && j != k ==> events[j].level != l
    ensures LevelIndices(events, l) == [k]
    ensures Formatted(OfLevel(events, l)) == [events[k].message.formattedMessage]
  {
    var last := |events| - 1;
    var prefix := events[..last];
    if k == last {
      NoEventAtLevel(prefix, l);
    } else {
      OneEventAtLevel(prefix, l, k);
    }
    assert LevelIndices(events, l) == LevelIndices(prefix, l) + (if events[last].level == l then [last] else []);
    var idx := LevelIndices(events, l);
    var selected := OfLevel(events, l);
    assert idx == [k];
    assert |selected| == |idx| && selected[0] == events[idx[0]];
  }

  /** Every event mapped to a record, in capture order. */
  function MapEvents(events: seq<NativeEvent>): (r: seq<LogEvent>)
    ensures |r| == |events|
    ensures forall i :: 0 <= i < |events| ==> r[i] == Mapper.Apply(events[i])
  {
    if events == [] then []
    else MapEvents(events[..|events| - 1]) + [Mapper.Apply(events[|events| - 1])]
  }

  /** Events captured with non-decreasing times give records with non-decreasing time stamps. */
  lemma MapEventsKeepsTimeOrder(events: seq<NativeEvent>)
    requires forall i, j :: 0 <= i <= j < |events| ==> events[i].timeMillis <= events[j].timeMillis
    ensures forall i, j :: 0 <= i <= j < |events| ==>
              IsBeforeOrEqual(MapEvents(events)[i].GetTimeStamp(), MapEvents(events)[j].GetTimeStamp())
  {
  }

  /** Every captured event shows up in exactly one level's list: the per-level counts add up to the whole. */
  lemma {:induction false} LevelCountsPartition(events: seq<NativeEvent>)
    ensures |OfLevel(events, OFF)| + |OfLevel(events, FATAL)| + |OfLevel(events, ERROR)|
            + |OfLevel(events, WARN)| + |OfLevel(events, INFO)| + |OfLevel(events, DEBUG)|
            + |OfLevel(events, TRACE)| + |OfLevel(events, ALL)| == |events|
  {
    if events != [] {
      LevelCountsPartition(events[..|events| - 1]);
    }
  }

  // ---------------------------------------------------------------------------
  // The process-wide level table and the level state it restores.

  /** `LOG_LEVEL_CONTAINER`: the level each logger name had when it was first captured. */
  class LevelTable {
    var levels: map<string, Level>

    constructor ()
      ensures levels == map[]
    {
      levels := map[];
    }
  }

  /** Records `level` for `name` unless the table already has an entry for it: first writer wins. */
  function SnapshotLevel(table: map<string, Level>, name: string, level: Level): (r: map<string, Level>)
    ensures name in r
    ensures name in table ==> r[name] == table[name]
    ensures name !in table ==> r[name] == level
    ensures forall k :: k != name ==> (k in r <==> k in table)
    ensures forall k :: k != name && k in table ==> r[k] == table[k]
  {
    if name in table then table else table[name := level]
  }

  /** The level and the table as the level operations of one logger see them. */
  datatype LevelState = LevelState(level: Level, table: map<string, Level>)

  /** The session operations as far as they touch a logger's level or the table. */
  datatype LevelOp =
    | Attach             // constructing a session for the logger
    | SetLevel(l: Level) // setLogLevelToInfo/Debug/Trace, disableLogs
    | Reset              // resetLogLevel
    | NoLevelChange      // addFilter, clearLogs, close, queries

  function Step(name: string, s: LevelState, op: LevelOp): LevelState {
    match op
    case Attach => s.(table := SnapshotLevel(s.table, name, s.level))
    case SetLevel(l) => s.(level := l)
    case Reset => if name in s.table then s.(level := s.table[name]) else s
    case NoLevelChange => s
  }

  function Run(name: string, s: LevelState, ops: seq<LevelOp>): LevelState
    decreases |ops|
  {
    if ops == [] then s else Run(name, Step(name, s, ops[0]), ops[1..])
  }

  /** Once a name has an entry, no sequence of operations changes it. */
  lemma {:induction false} RunKeepsSnapshot(name: string, s: LevelState, ops: seq<LevelOp>)
    requires name in s.table
    ensures name in Run(name, s, ops).table && Run(name, s, ops).table[name] == s.table[name]
    decreases |ops|
  {
    if ops != [] {
      RunKeepsSnapshot(name, Step(name, s, ops[0]), ops[1..]);
    }
  }

  /**
    The restore law: after the first session for a name, any mix of level overrides,
    further sessions and resets, followed by a reset, gives back the level the logger
    had before that first session.
  */
  lemma RestoreLaw(name: string, s: LevelState, ops: seq<LevelOp>)
    requires name !in s.table
    ensures Step(name, Run(name, Step(name, s, Attach), ops), Reset).level == s.level
  {
    RunKeepsSnapshot(name, Step(name, s, Attach), ops);
  }

  /** With no entry for the name, a reset leaves the level as it is: the `Reset` case of `Step`, stated here for reference. */
  lemma ResetWithoutSnapshotKeepsLevel(name: string, s: LevelState)
    requires name !in s.table
    ensures Step(name, s, Reset) == s
  {
  }

  // ---------------------------------------------------------------------------
  // The session.

  /** The state right after a session was attached to `logger` (constructor lines 65-84). */
  twostate predicate JustAttached(new c: LogCaptor, logger: Logger, table: LevelTable)
    reads c.listAppender, logger, table
  {
    && c.logger == logger && c.table == table
    && fresh(c.listAppender)
    && c.listAppender.name == AppenderName
    && c.listAppender.events == [] && c.listAppender.filters == [] && c.listAppender.started
    && logger.appenders == old(logger.appenders)[AppenderName := c.listAppender]
    && logger.level == old(logger.level)
    && table.levels == SnapshotLevel(old(table.levels), logger.name, old(logger.level))
  }

  class LogCaptor {
    const logger: Logger
    const listAppender: ListAppender
    const table: LevelTable

    /** The session's appender carries the reserved name. */
    ghost predicate Valid() {
      listAppender.name == AppenderName
    }

    /** Steps of the Java constructor that follow the SLF4J implementation check. */
    constructor Attach(logger: Logger, table: LevelTable)
      modifies logger`appenders, table`levels
      ensures JustAttached(this, logger, table)
      ensures Valid()
    {
      this.logger := logger;
      this.table := table;
      listAppender := new ListAppender(AppenderName);
      new;
      if logger.name !in table.levels {
        table.levels := table.levels[logger.name := logger.level];
      }
      if AppenderName in logger.appenders {
        logger.appenders := logger.appenders - {AppenderName};
      }
      logger.appenders := logger.appenders[listAppender.name := listAppender];
      listAppender.started := true;
      // the bridge from java.util.logging is not part of this model
      table.levels := SnapshotLevel(table.levels, logger.name, logger.level);  // putIfAbsent
    }

    /**
      The Java constructor for the logger the engine resolves: fails, changing
      nothing, unless the SLF4J logger is a Log4j one.
    */
    static method New(slf4j: Slf4jLogger, logger: Logger, table: LevelTable)
      returns (r: Result<LogCaptor, Exception>)
      modifies logger`appenders, table`levels
      ensures r.Failure? <==> slf4j.Other?
      ensures r.Failure? ==>
                && r.error == IllegalArgumentException(MismatchMessage(slf4j.className))
                && unchanged(logger, table)
      ensures r.Success? ==> fresh(r.value) && JustAttached(r.value, logger, table)
    {
      if slf4j.Other? {
        return Failure(IllegalArgumentException(MismatchMessage(slf4j.className)));
      }
      var c := new LogCaptor.Attach(logger, table);
      r := Success(c);
    }

    /** `forRoot`: a session on the root logger. */
    static method ForRoot(slf4j: Slf4jLogger, logger: Logger, table: LevelTable)
      returns (r: Result<LogCaptor, Exception>)
      requires logger.name == RootLoggerName
      modifies logger`appenders, table`levels
      ensures r.Failure? <==> slf4j.Other?
      ensures r.Failure? ==>
                && r.error == IllegalArgumentException(MismatchMessage(slf4j.className))
                && unchanged(logger, table)
      ensures r.Success? ==> fresh(r.value) && JustAttached(r.value, logger, table)
    {
      r := New(slf4j, logger, table);
    }

    /** `forClass`: a session on the logger named after a class. */
    static method ForClass(className: string, slf4j: Slf4jLogger, logger: Logger, table: LevelTable)
      returns (r: Result<LogCaptor, Exception>)
      requires logger.name == className
      modifies logger`appenders, table`levels
      ensures r.Failure? <==> slf4j.Other?
      ensures r.Failure? ==>
                && r.error == IllegalArgumentException(MismatchMessage(slf4j.className))
                && unchanged(logger, table)
      ensures r.Success? ==> fresh(r.value) && JustAttached(r.value, logger, table)
    {
      r := New(slf4j, logger, table);
    }

    /** `forName`: a session on the logger with the given name. */
    static method ForName(name: string, slf4j: Slf4jLogger, logger: Logger, table: LevelTable)
      returns (r: Result<LogCaptor, Exception>)
      requires logger.name == name
      modifies logger`appenders, table`levels
      ensures r.Failure? <==> slf4j.Other?
      ensures r.Failure? ==>
                && r.error == IllegalArgumentException(MismatchMessage(slf4j.className))
                && unchanged(logger, table)
      ensures r.Success? ==> fresh(r.value) && JustAttached(r.value, logger, table)
    {
      r := New(slf4j, logger, table);
    }

    /** `getLogs()`: the formatted text of every captured event, in capture order. */
    function GetLogs(): (r: seq<string>)
      reads listAppender
      ensures |r| == |listAppender.events|
      ensures forall i :: 0 <= i < |r| ==> r[i] == listAppender.events[i].message.formattedMessage
    {
      Formatted(listAppender.events)
    }

    /** `getLogs(Level)`: the formatted text of exactly the captured events at `level`, in capture order. */
    function GetLogsOfLevel(level: Level): (r: seq<string>)
      reads listAppender
      ensures ExactlyAtLevel(r, listAppender.events, level)
    {
      Formatted(OfLevel(listAppender.events, level))
    }

    function GetInfoLogs(): (r: seq<string>)
      reads listAppender
      ensures ExactlyAtLevel(r, listAppender.events, INFO)
    {
      GetLogsOfLevel(INFO)
    }

    function GetDebugLogs(): (r: seq<string>)
      reads listAppender
      ensures ExactlyAtLevel(r, listAppender.events, DEBUG)
    {
      GetLogsOfLevel(DEBUG)
    }

    function GetWarnLogs(): (r: seq<string>)
      reads listAppender
      ensures ExactlyAtLevel(r, listAppender.events, WARN)
    {
      GetLogsOfLevel(WARN)
    }

    function GetErrorLogs(): (r: seq<string>)
      reads listAppender
      ensures ExactlyAtLevel(r, listAppender.events, ERROR)
    {
      GetLogsOfLevel(ERROR)
    }

    function GetTraceLogs(): (r: seq<string>)
      reads listAppender
      ensures ExactlyAtLevel(r, listAppender.events, TRACE)
    {
      GetLogsOfLevel(TRACE)
    }

    /** `getLogEvents()`: every captured event through the mapper, in capture order. */
    function GetLogEvents(): (r: seq<LogEvent>)
      reads listAppender
      ensures |r| == |listAppender.events|
      ensures forall i :: 0 <= i < |r| ==> r[i] == Mapper.Apply(listAppender.events[i])
    {
      MapEvents(listAppender.events)
    }

    /** `addFilter`: the filter joins the appender's filters, after those already there, and is started. */
    method AddFilter(filter: Filter)
      modifies listAppender`filters, filter`started
      ensures listAppender.filters == old(listAppender.filters) + [filter]
      ensures filter.started
    {
      listAppender.filters := listAppender.filters + [filter];
      filter.started := true;
    }

    /** `setLogLevelTo`: re-routes "Console" at `level` and sets the logger's level; the table is untouched. */
    method SetLogLevelTo(level: Level)
      modifies logger`level, logger`appenderRefs
      ensures LevelState(logger.level, table.levels)
              == Step(logger.name, LevelState(old(logger.level), table.levels), SetLevel(level))
      ensures logger.appenderRefs == old(logger.appenderRefs)[ConsoleAppenderName := level]
    {
      logger.appenderRefs := (logger.appenderRefs - {ConsoleAppenderName})[ConsoleAppenderName := level];
      logger.level := level;
    }

    method SetLogLevelToInfo()
      modifies logger`level, logger`appenderRefs
      ensures logger.level == INFO
      ensures logger.appenderRefs == old(logger.appenderRefs)[ConsoleAppenderName := INFO]
    {
      SetLogLevelTo(INFO);
    }

    method SetLogLevelToDebug()
      modifies logger`level, logger`appenderRefs
      ensures logger.level == DEBUG
      ensures logger.appenderRefs == old(logger.appenderRefs)[ConsoleAppenderName := DEBUG]
    {
      SetLogLevelTo(DEBUG);
    }

    method SetLogLevelToTrace()
      modifies logger`level, logger`appenderRefs
      ensures logger.level == TRACE
      ensures logger.appenderRefs == old(logger.appenderRefs)[ConsoleAppenderName := TRACE]
    {
      SetLogLevelTo(TRACE);
    }

    /** `disableLogs`: the override at OFF. */
    method DisableLogs()
      modifies logger`level, logger`appenderRefs
      ensures logger.level == OFF
      ensures logger.appenderRefs == old(logger.appenderRefs)[ConsoleAppenderName := OFF]
    {
      SetLogLevelTo(OFF);
    }

    /** `resetLogLevel`: re-applies the level saved for the logger's name, if any; otherwise changes nothing. */
    method ResetLogLevel()
      modifies logger`level, logger`appenderRefs
      ensures LevelState(logger.level, table.levels)
              == Step(logger.name, LevelState(old(logger.level), table.levels), Reset)
      ensures logger.name in table.levels ==>
                logger.appenderRefs == old(logger.appenderRefs)[ConsoleAppenderName := table.levels[logger.name]]
      ensures logger.name !in table.levels ==> logger.appenderRefs == old(logger.appenderRefs)
    {
      if logger.name in table.levels {
        SetLogLevelTo(table.levels[logger.name]);
      }
    }

    /** `clearLogs`: empties the capture; level, table and attachment stay as they are. */
    method ClearLogs()
      modifies listAppender`events
      ensures listAppender.events == []
    {
      listAppender.events := [];
    }

    /** `close`: stops the appender and detaches whatever the logger holds under the appender's name. */
    method Close()
      requires Valid()
      modifies listAppender`started, logger`appenders
      ensures !listAppender.started
      ensures logger.appenders == old(logger.appenders) - {AppenderName}
    {
      listAppender.started := false;
      logger.appenders := logger.appenders - {listAppender.name};
    }
  }

  // ---------------------------------------------------------------------------
  // Environment stub: event delivery is Log4j's behaviour, not LogCaptor's.

  /** The appender takes an event at level `l` routed through a logger whose level is `threshold`. */
  predicate Routes(threshold: Level, a: ListAppender, l: Level)
    reads a
  {
    IsEnabled(threshold, l) && a.Accepts(l)
  }

  /**
    Log4j delivering an event logged on `logger` to the appender attached under
    "log-captor": appended when the level passes the logger's threshold, the
    appender is started and its filters do not deny it.
  */
  method Deliver(logger: Logger, e: NativeEvent)
    modifies if AppenderName in logger.appenders then {logger.appenders[AppenderName]} else {}
    ensures AppenderName in logger.appenders ==>
              var a := logger.appenders[AppenderName];
              && a.events == old(a.events) + (if old(Routes(logger.level, a, e.level)) then [e] else [])
              && a.filters == old(a.filters) && a.started == old(a.started)
  {
    if AppenderName in logger.appenders {
      var a := logger.appenders[AppenderName];
      if Routes(logger.level, a, e.level) {
        a.events := a.events + [e];
      }
    }
  }
}
