/** The append-only event log, kept under one fixed key of the browser's
    per-origin key-value storage. The stored text is abstracted to what
    parsing it yields; writes may fail (quota, unavailable storage,
    unserialisable payload), and every failure is swallowed. */
module EventLog {
  import Catalog
  import Messages

  const LogKey: string := "sectrain_logs"

  datatype EventType = ScenarioChoice | MarkerEvent | ChatEvent | Status

  /** The payload as each producer shapes it; `Opaque` stands for any other
      structure, passed through unread. */
  datatype Payload =
    | ChoicePayload(scenarioId: string, stepId: string, option: Catalog.ScenarioOption)
    | MarkerPayload(marker: Messages.Marker)   // stored wrapped: { marker }
    | ChatPayload(msg: Messages.ChatMsg)        // stored as the message itself
    | Opaque

  datatype LogEvent = LogEvent(ts: int, kind: EventType, payload: Payload)

  /** What a stored value parses to. `Corrupt` is text that does not parse
      (or storage that cannot be read), `NonArray` is well-formed JSON that is
      not an array. */
  datatype Slot = Corrupt | NonArray | Valid(events: seq<LogEvent>)

  /** The whole per-origin storage area; a missing key is an absent item. */
  type Storage = map<string, Slot>

  /** Two storages agree on every key other than the log's. */
  ghost predicate OthersUnchanged(st: Storage, st': Storage) {
    forall k :: k != LogKey ==> (k in st <==> k in st') && (k in st ==> st'[k] == st[k])
  }

  /** The log as the review screen and every appender see it. Never fails:
      absent, unparsable and non-array data all read as the empty log. */
  function ReadLog(st: Storage): (r: seq<LogEvent>)
    ensures LogKey !in st ==> r == []
    ensures LogKey in st && !st[LogKey].Valid? ==> r == []
    ensures LogKey in st && st[LogKey].Valid? ==> r == st[LogKey].events
  {
    if LogKey in st then
      match st[LogKey]
      case Valid(events) => events
      case _ => []
    else
      []
  }

  /** Appends `ev` by rewriting the whole log. `writeOk` is false when the
      write throws, in which case storage is left as it was. */
  function PushLog(st: Storage, ev: LogEvent, writeOk: bool): (st': Storage)
    ensures writeOk ==> ReadLog(st') == ReadLog(st) + [ev]
    ensures writeOk ==> LogKey in st' && st'[LogKey].Valid?
    ensures !writeOk ==> st' == st
    ensures OthersUnchanged(st, st')
  {
    if writeOk then st[LogKey := Valid(ReadLog(st) + [ev])] else st
  }

  /** Removes the log's key; a failed removal is silent and changes nothing. */
  function ClearLog(st: Storage, removeOk: bool): (st': Storage)
    ensures removeOk ==> LogKey !in st' && ReadLog(st') == []
    ensures !removeOk ==> st' == st
    ensures OthersUnchanged(st, st')
  {
    if removeOk then st - {LogKey} else st
  }

  /** A successful append puts `ev` last and keeps everything before it, in
      order; a failed one leaves the log as it was. */
  lemma PushLogAppends(st: Storage, ev: LogEvent, writeOk: bool)
    ensures var log' := ReadLog(PushLog(st, ev, writeOk));
      if writeOk then
        && |log'| == |ReadLog(st)| + 1
        && log'[|log'| - 1] == ev
        && ReadLog(st) == log'[..|log'| - 1]
      else
        log' == ReadLog(st)
  {
    var log' := ReadLog(PushLog(st, ev, writeOk));
    if writeOk {
      assert log' == ReadLog(st) + [ev];
      assert log'[..|log'| - 1] == ReadLog(st);
    }
  }

  /** Appending to a slot holding corrupt or non-array data discards it and
      leaves exactly the new event. */
  lemma PushOntoDamagedLog(st: Storage, ev: LogEvent)
    requires LogKey in st && !st[LogKey].Valid?
    ensures PushLog(st, ev, true)[LogKey] == Valid([ev])
  {
  }

  /** The log only grows: whatever an append does, the old log is a prefix of
      the new one. */
  lemma PushLogExtends(st: Storage, ev: LogEvent, writeOk: bool)
    ensures ReadLog(st) <= ReadLog(PushLog(st, ev, writeOk))
  {
  }

  /** Clearing then reading gives the empty log; a clear that fails silently
      leaves it readable as before. */
  lemma ClearThenRead(st: Storage, removeOk: bool)
    ensures removeOk ==> ReadLog(ClearLog(st, removeOk)) == []
    ensures !removeOk ==> ReadLog(ClearLog(st, removeOk)) == ReadLog(st)
  {
  }

  /** Reading looks at the log's key and nothing else: storages that agree
      there read the same log, whatever other keys hold. */
  lemma ReadLogOnlyLogKey(st: Storage, st': Storage)
    requires (LogKey in st <==> LogKey in st') && (LogKey in st ==> st[LogKey] == st'[LogKey])
    ensures ReadLog(st) == ReadLog(st')
  {
  }
}
