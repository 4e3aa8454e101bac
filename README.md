# log-captor: a Dafny model of the capture session

log-captor is a test utility. It captures the events that application code logs through
Log4j 2, SLF4J or java.util.logging, so that tests can assert on messages, levels,
arguments, time stamps and diagnostic context. This project models its core. The core has
three parts:

- **`LogEvent`** (`log_event.dfy`, module `Model`): the immutable, normalised record. Java's
  nullable references become `Option`s. The constructor's null checks become `NewLogEvent`,
  which returns a `NullPointerException` failure instead of a record.
- **`LogEventMapper`** (`log_event_mapper.dfy`, module `Mapper`): the total function `Apply`
  from a native Log4j event to a record. The lemma `UnmapInvertsApply` shows that the mapping
  loses nothing: the native event can be read back from its record.
- **`LogCaptor`** (`log_captor.dfy`, module `Captor`):
  - The stream pipelines of `getLogs`, `getLogs(Level)` and `getLogEvents` are pure functions
    over the captured sequence (`Formatted`, `OfLevel`, `MapEvents`). `LevelIndices` is an
    independent reference: the ascending positions of the events at one level.
  - The process-wide `LOG_LEVEL_CONTAINER` is a `LevelTable` object that every session is given.
    `SnapshotLevel` (first writer wins) and a small level-state machine (`Step`, `Run`) specify
    it. `RestoreLaw` proves the restore law over any sequence of operations.
  - The session itself is the class `LogCaptor`. Its methods change the logger's level,
    `Console` routing and appender map, and the list appender's events, filters and started
    flag. Each method's `ensures` states the whole new state.

Log4j itself appears only as abstract state, in `engine.dfy` (module `Engine`):

- a `Logger` with a name, a level, the routing level of each configuration appender, and the
  list appenders attached to it by name;
- a `ListAppender` with its events, filters and started flag;
- `LevelMatchFilter`s;
- the `Level` enumeration with `toString`, `intLevel` and `toLevel`.

`lang.dfy` (module `Lang`) holds `Option`, `Result` and the exceptions.

Event delivery is Log4j's behaviour, not log-captor's. It is modelled only as the stub
`Captor.Deliver`. The stub appends an event to the appender attached under `"log-captor"`
when three things hold: the event's level passes the logger's level, the appender is
started, and its filters (evaluated as a Log4j composite filter) do not deny the event.

`scenarios.dfy` (module `Scenarios`) replays several of the repository's tests as client
methods. Each one is proved from the contracts alone:

- INFO, then DEBUG capture after clearing;
- capture while logging is disabled;
- an INFO-only filter;
- a close that detaches the appender, twice;
- an unsupported SLF4J backend;
- reset across two sessions.

Four points of the code's behaviour that the model keeps:

- The record's message, formatted message, level and time stamp are only required to be
  non-null. Nothing requires them to be non-empty.
- Arguments and diagnostic context may be null in a record built directly. Only records that
  come from the mapper always carry both.
- A session has no explicit "closed" state. Queries and level changes still work after
  `close`. Closing twice leaves the same state as closing once.
- A Log4j logger removes appenders by name. So `Close` removes whatever is attached under
  `"log-captor"`, even another session's appender (`Scenarios.StaleCloseDetachesNewerSession`).
  An appender replaced at construction is detached but not stopped.

## Model

| member | source | states |
|---|---|---|
| `Model.NewLogEvent` | src/main/java/nl/altindag/log/model/LogEvent.java:41-90 | Construction fails with a NullPointerException exactly when message, formatted message, level or time stamp is null. Otherwise every getter returns its constructor argument: `getMessage` returns the message's format, and `getThrowable` is empty exactly when the throwable is null. |
| `Model.GetMessageIsFormat` | src/main/java/nl/altindag/log/model/LogEvent.java:60-62 | A record keeps the message object, so `getMessage` is the format string while `getFormattedMessage` is the rendered text. |
| `Mapper.Apply` | src/main/java/nl/altindag/log/mapper/LogEventMapper.java:43-70 | Mapping never fails. The record carries the native message's format and rendered text, the level's name, the logger name as given (null included) and the epoch time at UTC. Arguments are the parameters in order, or empty when they are null, and never null. The throwable is present exactly when the native one is, and is the same object. The context is the native context data. |
| `Mapper.UnmapInvertsApply` | src/main/java/nl/altindag/log/mapper/LogEventMapper.java:43-70 | The native event can be read back from its record (message, level by name, logger name, time, thrown, context), so mapping loses nothing. |
| `Mapper.ApplyInjective` | src/main/java/nl/altindag/log/mapper/LogEventMapper.java:43-70 | Distinct native events map to distinct records. |
| `Mapper.TimeStampMonotone` | src/main/java/nl/altindag/log/mapper/LogEventMapper.java:49 | Earlier-or-equal native times give earlier-or-equal UTC time stamps. |
| `Mapper.ContextIsSnapshot` | src/main/java/nl/altindag/log/mapper/LogEventMapper.java:50 | The record's context is the event's context data at mapping time. An event that differs only in its context maps to the same record with only the context replaced, and to a different record whenever that context differs. |
| `Engine.ToLevelInvertsLevelName` | src/test/java/nl/altindag/log/LogCaptorShould.java:369-372 | A record's level string reads back, through `Level.toLevel`, as the original level. |
| `Engine.LevelNameInjective` | src/main/java/nl/altindag/log/mapper/LogEventMapper.java:47 | Distinct levels have distinct level strings. |
| `Captor.MismatchMessage` | src/main/java/nl/altindag/log/LogCaptor.java:56-61 | The exception message is a fixed text, then the found class name, then a fixed text. Neither fixed text depends on the found class. |
| `Captor.MismatchMessageDeterminesClass` | src/main/java/nl/altindag/log/LogCaptor.java:56-61 | Distinct found classes give distinct messages, so the message identifies the offending implementation. |
| `Captor.MismatchMessageNamesBothClasses` | src/main/java/nl/altindag/log/LogCaptor.java:55-62 | The exception message names the expected class `org.apache.logging.log4j.core.Logger` and the found class, each in brackets. |
| `Captor.Formatted` | src/main/java/nl/altindag/log/LogCaptor.java:108-113 | One entry per captured event, in capture order, each being that event's formatted text. |
| `Captor.LevelIndices` | src/main/java/nl/altindag/log/LogCaptor.java:135-141 | The strictly ascending positions of exactly the events whose level equals the given one. |
| `Captor.OfLevel` | src/main/java/nl/altindag/log/LogCaptor.java:135-141 | The level filter keeps exactly the events at the given positions, in order. |
| `Captor.NoEventAtLevel` | src/main/java/nl/altindag/log/LogCaptor.java:135-141 | A level that no captured event has yields no positions. |
| `Captor.OneEventAtLevel` | src/main/java/nl/altindag/log/LogCaptor.java:135-141 | A level met by exactly one event yields exactly that event's text, as the tests' `containsExactly` expects. |
| `Captor.LevelCountsPartition` | src/main/java/nl/altindag/log/LogCaptor.java:135-141 | Every captured event appears in exactly one level's list: the per-level counts add up to the number of events. |
| `Captor.MapEvents` | src/main/java/nl/altindag/log/LogCaptor.java:143-147 | One record per captured event, in capture order, each the mapper applied to that event. |
| `Captor.MapEventsKeepsTimeOrder` | src/main/java/nl/altindag/log/LogCaptor.java:143-147 | Events captured with non-decreasing times give records with non-decreasing time stamps. |
| `Captor.LevelTable.constructor` | src/main/java/nl/altindag/log/LogCaptor.java:47 | The level table starts empty. It is the table every session is given: a single object passed to each session in place of the static field. |
| `Captor.SnapshotLevel` | src/main/java/nl/altindag/log/LogCaptor.java:72-84 | After the snapshot the table holds the logger's name. An existing entry keeps its value, a missing one gets the current level, and other names are untouched. |
| `Captor.RunKeepsSnapshot` | src/main/java/nl/altindag/log/LogCaptor.java:72-84 | Once a name has an entry, no sequence of attaches, overrides, resets or other operations changes it. |
| `Captor.RestoreLaw` | src/main/java/nl/altindag/log/LogCaptor.java:196-203 | Attach a first session, then run any operations and reset: the level returns to its value before the first session. |
| `Captor.ResetWithoutSnapshotKeepsLevel` | src/main/java/nl/altindag/log/LogCaptor.java:200-203 | Without an entry for the name, a reset changes nothing. |
| `Captor.LogCaptor.Attach` | src/main/java/nl/altindag/log/LogCaptor.java:65-84 | After construction the table is the first-writer-wins snapshot. The logger's appender map is the old map with `"log-captor"` bound to a fresh, started, empty, unfiltered list appender, so an earlier one is replaced. The logger's level is unchanged. |
| `Captor.LogCaptor.New` | src/main/java/nl/altindag/log/LogCaptor.java:53-85 | Fails with an IllegalArgumentException carrying the mismatch message exactly when the SLF4J logger is neither a Log4j core Logger nor a Log4jLogger, and then changes nothing. Otherwise it attaches as `Attach` states. |
| `Captor.LogCaptor.ForRoot` | src/main/java/nl/altindag/log/LogCaptor.java:90-92 | A session on the root logger (name ""), with the same outcomes as `New`. |
| `Captor.LogCaptor.ForClass` | src/main/java/nl/altindag/log/LogCaptor.java:97-99 | A session on the logger named after the class, with the same outcomes as `New`. |
| `Captor.LogCaptor.ForName` | src/main/java/nl/altindag/log/LogCaptor.java:104-106 | A session on the named logger, with the same outcomes as `New`. |
| `Captor.LogCaptor.GetLogs` | src/main/java/nl/altindag/log/LogCaptor.java:108-113 | The formatted text of every captured event, in capture order. |
| `Captor.LogCaptor.GetLogsOfLevel` | src/main/java/nl/altindag/log/LogCaptor.java:135-141 | The formatted text of exactly the captured events at the level, in capture order. |
| `Captor.LogCaptor.GetInfoLogs` | src/main/java/nl/altindag/log/LogCaptor.java:115-117 | Exactly the INFO events' texts, in capture order. |
| `Captor.LogCaptor.GetDebugLogs` | src/main/java/nl/altindag/log/LogCaptor.java:119-121 | Exactly the DEBUG events' texts, in capture order. |
| `Captor.LogCaptor.GetWarnLogs` | src/main/java/nl/altindag/log/LogCaptor.java:123-125 | Exactly the WARN events' texts, in capture order. |
| `Captor.LogCaptor.GetErrorLogs` | src/main/java/nl/altindag/log/LogCaptor.java:127-129 | Exactly the ERROR events' texts, in capture order. |
| `Captor.LogCaptor.GetTraceLogs` | src/main/java/nl/altindag/log/LogCaptor.java:131-133 | Exactly the TRACE events' texts, in capture order. |
| `Captor.LogCaptor.GetLogEvents` | src/main/java/nl/altindag/log/LogCaptor.java:143-147 | One mapped record per captured event, in capture order. |
| `Captor.LogCaptor.AddFilter` | src/main/java/nl/altindag/log/LogCaptor.java:149-152 | The filter is appended after the appender's existing filters, which are never replaced, and the filter is started. |
| `Captor.LogCaptor.SetLogLevelTo` | src/main/java/nl/altindag/log/LogCaptor.java:215-224 | The logger's level becomes the given level and `Console` is re-routed at that level. The table is untouched. |
| `Captor.LogCaptor.SetLogLevelToInfo` | src/main/java/nl/altindag/log/LogCaptor.java:161-163 | The override at INFO. |
| `Captor.LogCaptor.SetLogLevelToDebug` | src/main/java/nl/altindag/log/LogCaptor.java:172-174 | The override at DEBUG. |
| `Captor.LogCaptor.SetLogLevelToTrace` | src/main/java/nl/altindag/log/LogCaptor.java:183-185 | The override at TRACE. |
| `Captor.LogCaptor.DisableLogs` | src/main/java/nl/altindag/log/LogCaptor.java:192-194 | The override at OFF. |
| `Captor.LogCaptor.ResetLogLevel` | src/main/java/nl/altindag/log/LogCaptor.java:200-203 | With an entry for the logger's name, the saved level is re-applied (level and `Console` routing). Without one, nothing changes. |
| `Captor.LogCaptor.ClearLogs` | src/main/java/nl/altindag/log/LogCaptor.java:205-207 | The captured events become empty. Level, table, filters and attachment are untouched. |
| `Captor.LogCaptor.Close` | src/main/java/nl/altindag/log/LogCaptor.java:227-230 | The appender is stopped and the logger no longer holds an appender named `"log-captor"`. Level, table and captured events are untouched. |
| `Scenarios.SayHello` | src/test/java/nl/altindag/log/service/apache/ServiceWithApacheLog4j2.java:32-41 | The demo service emits INFO, WARN, ERROR, TRACE, and then DEBUG only when DEBUG is enabled. The captor's appender keeps those the routing lets through, in that order. |
| `Scenarios.KeyboardMessageKeepsFormat` | src/test/java/nl/altindag/log/LogCaptorShould.java:140-154 | A parameterised message maps to a record with the `{}` format, the rendered text and the argument. |

## Left out

- Captor.LevelTable.constructor: Dafny has no mutable static state, so the one `LOG_LEVEL_CONTAINER` is a `LevelTable` passed to every session. The model does not stop a caller from creating a second table. First-writer-wins and `RestoreLaw` hold across sessions only when all of them are given the same table; sessions given separate tables can restore an override level, which the static field rules out.
- Custom levels (`Level.forName`): `Level` has only the eight standard levels, so `LevelCountsPartition`'s claim that every captured event is in exactly one level's list covers only those levels.
- The bridge from java.util.logging into SLF4J (`LogCaptor.java:83`): its source is not part of this model.
- Logger resolution through `LoggerContext.getContext` and `getLogger`: the engine's logger for the name is passed in. The `For*` preconditions only state that it carries the name asked for.
- SLF4J's `LoggerFactory` lookup and the `instanceof` checks: the backend kind is an input (`Slf4jLogger`).
- Configuration inheritance and additivity: events logged on a child logger do not reach a parent's session, and a logger's level is its own level.
- `context.updateLoggers()`: a level override takes effect at once.
- The configuration's `Console` appender is assumed to exist. Without one, Log4j itself would throw during an override, and the model does not capture that.
- Appenders other than list appenders: in a logger's appender map they are not modelled. `Deliver` feeds only the appender under `"log-captor"`.
- `addFilter(null)` fails with a NullPointerException at `filter.start()`: `AddFilter` takes a non-null filter, so that failure is not modelled.
- Message formatting and `{}` substitution: the rendered text is a field of the native message.
- `Level.toLevel` case folding: only exact upper-case names are read back.
- `ZonedDateTime` calendar arithmetic: a time stamp is epoch milliseconds with a zone offset, and the mapper's offset is UTC (0).
- Java object identity beyond an opaque `Obj` identity for arguments and throwables. Filters are objects, but only level-match filters exist.
- Concurrency: the thread-safety of `ListAppender` and the unsynchronised static table. The model is single-threaded.
- `ListAppender.clear` also empties the appender's message and data lists. The model keeps events only.
- `Mappers.toLogEvent` only returns the mapper instance, so the model calls `Mapper.Apply` directly.
