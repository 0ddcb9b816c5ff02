/** The log record as it is cached, queued and stored, and how a wire message becomes one. */
module Records {
  import opened Decimal
  import Levels

  /** A log message as a client sends it (internal/protocol/messages.go). */
  datatype LogMessage = LogMessage(
    service: string, session: string, timestamp: int, stream: string, message: string)

  /** The fields the cache entry and the table row have in common. */
  datatype Record = Record(
    sessionId: int, timestamp: int, stream: string, level: string, message: string, service: string)

  /** A row of log_events. Cached entries carry no ID: neither Add sets it. */
  datatype Row = Row(id: nat, rec: Record)

  /** The level given to a line both when it is cached and, again, when it is batched. */
  function LevelOf(m: LogMessage): string {
    var detected := Levels.Detect(m.message);
    if detected == "" && m.stream == "stderr" then "error" else detected
  }

  /** A parse error is ignored: the record then carries whatever value ParseInt returned. */
  function ToRecord(m: LogMessage): Record {
    Record(ParseInt(m.session).value, m.timestamp, m.stream, LevelOf(m), m.message, m.service)
  }

  /** An error line proper: an ERROR or ERR word and nothing worse. */
  predicate IsErrorLine(line: string) {
    && (Levels.HasWord(line, "ERROR") || Levels.HasWord(line, "ERR"))
    && !Levels.HasWord(line, "FATAL") && !Levels.HasWord(line, "PANIC")
  }

  /** The level of every line outright: its worst keyword, and error for a line on stderr that has none. */
  lemma LevelOfEveryLine(m: LogMessage)
    ensures LevelOf(m) ==
        if Levels.HasWord(m.message, "FATAL") || Levels.HasWord(m.message, "PANIC") then "fatal"
        else if Levels.HasWord(m.message, "ERROR") || Levels.HasWord(m.message, "ERR") then "error"
        else if Levels.HasWord(m.message, "WARN") || Levels.HasWord(m.message, "WARNING") then "warn"
        else if Levels.HasWord(m.message, "INFO") then "info"
        else if Levels.HasWord(m.message, "DEBUG") || Levels.HasWord(m.message, "TRACE") then "debug"
        else if m.stream == "stderr" then "error"
        else ""
  {
    Levels.DetectsBySeverity(m.message);
  }

  /** What the error level of a record says about the line it came from. */
  lemma ErrorLevelMeaning(m: LogMessage)
    ensures m.stream == "stderr" || LevelOf(m) == "error" <==> m.stream == "stderr" || IsErrorLine(m.message)
    ensures LevelOf(m) in {"fatal", "error", "warn", "info", "debug", ""}
  {
    Levels.DetectsErrorIff(m.message);
    Levels.DetectIsWorstWord(m.message);
  }
}
