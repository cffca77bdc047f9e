/** The logger: a list of registered sinks and a set of enabled levels.  A
    message of an enabled level is delivered once to every sink, in the
    order the sinks were added; the deliveries are returned.  This logger
    tags messages with its own four levels (it has no `None` level). */
module Logger {
  import LogMessages

  /** The levels this logger knows. `Logger.swift` declares its own
      `LogLevel` and `LogMessage`, apart from the ones in `LogLevel.swift` and
      `LogMessage.swift` (module `LogMessages`), so both pairs exist here too. */
  datatype LogLevel = Debug | Info | Warning | Error

  /** A message as this logger builds it. */
  datatype LogMessage = LogMessage(file: string, functionName: string, text: string, level: LogLevel)

  /** A registered `Logging` object, known by its identity. */
  datatype Sink = Sink(id: nat)

  /** One `addMessage` call on a sink. */
  datatype Delivery = Delivery(sink: Sink, message: LogMessage)

  /** `LogMessage.init` of the message type in `Logger.swift`; the one in
      `LogMessage.swift` is `LogMessages.NewLogMessage`. The file name is the
      last component of the path. */
  function NewLogMessage(path: string, functionName: string, text: string, level: LogLevel): (m: LogMessage)
    ensures m.file == LogMessages.FileOf(path) && '/' !in m.file
    ensures m.functionName == functionName && m.text == text && m.level == level
  {
    LogMessage(LogMessages.FileOf(path), functionName, text, level)
  }

  /** The message delivered to each sink in turn. */
  function FanOut(sinks: seq<Sink>, message: LogMessage): (ds: seq<Delivery>)
    ensures |ds| == |sinks|
    ensures forall i :: 0 <= i < |sinks| ==> ds[i] == Delivery(sinks[i], message)
  {
    if sinks == [] then [] else FanOut(sinks[..|sinks| - 1], message) + [Delivery(sinks[|sinks| - 1], message)]
  }

  class Logger {
    var loggers: seq<Sink>
    var enabledLevels: set<LogLevel>

    constructor ()
      ensures loggers == [] && enabledLevels == {}
    {
      loggers := [];
      enabledLevels := {};
    }

    /** Add a sink at the end of the list. */
    method AddLogging(logging: Sink)
      modifies this`loggers
      ensures loggers == old(loggers) + [logging]
    {
      loggers := loggers + [logging];
    }

    method EnableLevel(level: LogLevel)
      modifies this`enabledLevels
      ensures enabledLevels == old(enabledLevels) + {level}
    {
      enabledLevels := enabledLevels + {level};
    }

    method DisableLevel(level: LogLevel)
      modifies this`enabledLevels
      ensures enabledLevels == old(enabledLevels) - {level}
    {
      enabledLevels := enabledLevels - {level};
    }

    /** The deliveries a message of `level` causes: the message goes to
        every sink, or nowhere when its level is disabled. */
    function Deliveries(level: LogLevel, text: string, path: string, functionName: string): (ds: seq<Delivery>)
      reads this
      ensures level !in enabledLevels ==> ds == []
      ensures level in enabledLevels ==>
        |ds| == |loggers|
        && forall i :: 0 <= i < |ds| ==>
             ds[i].sink == loggers[i] && ds[i].message.level == level
             && ds[i].message.text == text && ds[i].message.file == LogMessages.FileOf(path)
             && ds[i].message.functionName == functionName
    {
      if level in enabledLevels then FanOut(loggers, NewLogMessage(path, functionName, text, level)) else []
    }

    method LogDebug(message: string, path: string, functionName: string) returns (deliveries: seq<Delivery>)
      ensures deliveries == Deliveries(Debug, message, path, functionName)
    {
      if Debug !in enabledLevels {
        return [];
      }
      deliveries := ForwardLogMessage(NewLogMessage(path, functionName, message, Debug));
    }

    method LogInfo(message: string, path: string, functionName: string) returns (deliveries: seq<Delivery>)
      ensures deliveries == Deliveries(Info, message, path, functionName)
    {
      if Info !in enabledLevels {
        return [];
      }
      deliveries := ForwardLogMessage(NewLogMessage(path, functionName, message, Info));
    }

    method LogWarn(message: string, path: string, functionName: string) returns (deliveries: seq<Delivery>)
      ensures deliveries == Deliveries(Warning, message, path, functionName)
    {
      if Warning !in enabledLevels {
        return [];
      }
      deliveries := ForwardLogMessage(NewLogMessage(path, functionName, message, Warning));
    }

    method LogError(message: string, path: string, functionName: string) returns (deliveries: seq<Delivery>)
      ensures deliveries == Deliveries(Error, message, path, functionName)
    {
      if Error !in enabledLevels {
        return [];
      }
      deliveries := ForwardLogMessage(NewLogMessage(path, functionName, message, Error));
    }

    /** Hand the message to each sink, in registration order. */
    method ForwardLogMessage(message: LogMessage) returns (deliveries: seq<Delivery>)
      ensures |deliveries| == |loggers|
      ensures forall i :: 0 <= i < |loggers| ==> deliveries[i] == Delivery(loggers[i], message)
    {
      deliveries := [];
      for i := 0 to |loggers|
        invariant |deliveries| == i
        invariant forall j :: 0 <= j < i ==> deliveries[j] == Delivery(loggers[j], message)
      {
        deliveries := deliveries + [Delivery(loggers[i], message)];
      }
    }
  }
}
