/**
  The part of the Log4j 2 engine that a capture session reads and writes, reduced to
  plain state: levels, messages, native events, level-match filters, list appenders
  and loggers. How Log4j resolves loggers, inherits configuration and formats
  messages is not part of this model; these declarations only carry the values the
  capture code sees.
*/
module Engine {
  import opened Lang

  /** Log4j's standard levels, from most to least severe. */
  datatype Level = OFF | FATAL | ERROR | WARN | INFO | DEBUG | TRACE | ALL

  /** `Level.toString()`: the level's name. */
  function LevelName(l: Level): string {
    match l
    case OFF => "OFF"
    case FATAL => "FATAL"
    case ERROR => "ERROR"
    case WARN => "WARN"
    case INFO => "INFO"
    case DEBUG => "DEBUG"
    case TRACE => "TRACE"
    case ALL => "ALL"
  }

  /** `Level.intLevel()`: a smaller number is a more severe level. */
  function IntLevel(l: Level): nat {
    match l
    case OFF => 0
    case FATAL => 100
    case ERROR => 200
    case WARN => 300
    case INFO => 400
    case DEBUG => 500
    case TRACE => 600
    case ALL => 2147483647
  }

  /** `Level.toLevel(String)`: the level with that name, DEBUG for an unknown name. */
  function ToLevel(s: string): Level {
    if s == "OFF" then OFF
    else if s == "FATAL" then FATAL
    else if s == "ERROR" then ERROR
    else if s == "WARN" then WARN
    else if s == "INFO" then INFO
    else if s == "DEBUG" then DEBUG
    else if s == "TRACE" then TRACE
    else if s == "ALL" then ALL
    else DEBUG
  }

  /** A level's name reads back as that level. */
  lemma ToLevelInvertsLevelName(l: Level)
    ensures ToLevel(LevelName(l)) == l
  {
    match l
    case OFF =>
    case FATAL =>
    case ERROR =>
    case WARN =>
    case INFO =>
    case DEBUG =>
    case TRACE =>
    case ALL =>
  }

  /** Distinct levels have distinct names. */
  lemma LevelNameInjective(a: Level, b: Level)
    ensures LevelName(a) == LevelName(b) ==> a == b
  {
    ToLevelInvertsLevelName(a);
    ToLevelInvertsLevelName(b);
  }

  /** A logger whose level is `threshold` lets an event at level `l` through. */
  predicate IsEnabled(threshold: Level, l: Level) {
    IntLevel(l) <= IntLevel(threshold)
  }

  /** An opaque Java object (a message argument or a throwable), compared by identity. */
  datatype Obj = Obj(identity: nat)

  /** A Log4j `Message`: its format string, its rendered text and its parameters (null allowed). */
  datatype Message = Message(format: string, formattedMessage: string, parameters: Option<seq<Obj>>)

  /** A native Log4j core `LogEvent`, as far as the capture code reads it. */
  datatype NativeEvent = NativeEvent(
    message: Message,
    level: Level,
    loggerName: Option<string>,
    timeMillis: int,
    thrown: Option<Obj>,
    contextData: map<string, string>)

  /** `Filter.Result`. */
  datatype FilterResult = ACCEPT | NEUTRAL | DENY

  /** A `LevelMatchFilter`: `onMatch` for its level, `onMismatch` for every other level. */
  class Filter {
    const level: Level
    const onMatch: FilterResult
    const onMismatch: FilterResult
    var started: bool

    constructor LevelMatch(level: Level, onMatch: FilterResult, onMismatch: FilterResult)
      ensures this.level == level && this.onMatch == onMatch && this.onMismatch == onMismatch
      ensures !started
    {
      this.level := level;
      this.onMatch := onMatch;
      this.onMismatch := onMismatch;
      started := false;
    }

    function Decide(l: Level): FilterResult {
      if l == level then onMatch else onMismatch
    }
  }

  /** Several filters on one appender act as a `CompositeFilter`: the first verdict that is not NEUTRAL decides. */
  function CompositeDecision(filters: seq<Filter>, l: Level): FilterResult {
    if filters == [] then NEUTRAL
    else if filters[0].Decide(l) != NEUTRAL then filters[0].Decide(l)
    else CompositeDecision(filters[1..], l)
  }

  /** Log4j's test `ListAppender`: a named appender that keeps every event it receives. */
  class ListAppender {
    const name: string
    var events: seq<NativeEvent>
    var filters: seq<Filter>
    var started: bool

    constructor (name: string)
      ensures this.name == name
      ensures events == [] && filters == [] && !started
    {
      this.name := name;
      events := [];
      filters := [];
      started := false;
    }

    /** The appender takes an event at level `l`: it is started and its filters do not deny it. */
    predicate Accepts(l: Level)
      reads this
    {
      started && CompositeDecision(filters, l) != DENY
    }
  }

  /**
    A Log4j core `Logger` with its configuration folded in: its name, its configured
    level, the levels at which its configuration routes to named configuration
    appenders such as "Console", and the list appenders attached to it by name.
  */
  class Logger {
    const name: string
    var level: Level
    var appenderRefs: map<string, Level>
    var appenders: map<string, ListAppender>

    constructor (name: string, level: Level, appenderRefs: map<string, Level>)
      ensures this.name == name && this.level == level && this.appenderRefs == appenderRefs
      ensures appenders == map[]
    {
      this.name := name;
      this.level := level;
      this.appenderRefs := appenderRefs;
      appenders := map[];
    }
  }
}
