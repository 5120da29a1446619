/** One browser tab of the team session as a reducer: its markers, chat,
    input box and role, changed by local actions and by messages from other
    tabs. The broadcast channel is an outbox of what this tab posted; other
    tabs apply those messages with Receive. A tab's own posts never come
    back to it, so a local action applies its effect once, locally. */
module Team {
  import opened Messages
  import EventLog
  import Text

  datatype TabState = TabState(markers: seq<Marker>, chat: seq<ChatMsg>, input: string, role: string)

  /** A tab together with its outbox, the shared storage holding the event
      log, and whether its channel is open (None in the source when the
      channel has not been created). */
  datatype Session = Session(tab: TabState, outbox: seq<Msg>, store: EventLog.Storage, channelOpen: bool)

  /** The roles on offer; a tab starts as "Trainee". */
  const Roles: seq<string> := ["Leader", "Instructor", "Trainee", "Comms"]

  /** A tab as it opens: an empty board, no chat, an empty input box, and the
      "Trainee" role picked from the roles on offer. */
  function InitialTab(): (r: TabState)
    ensures r.markers == [] && r.chat == [] && r.input == []
    ensures r.role in Roles && r.role == Roles[2]
  {
    TabState([], [], "", "Trainee")
  }

  /** The channel's message handler: a marker or chat message from another
      tab is appended to the matching list; anything else is ignored. */
  function Receive(tab: TabState, m: Msg): (r: TabState)
    ensures r.input == tab.input && r.role == tab.role
    ensures m.MarkerMessage? ==> r.markers == tab.markers + [m.marker] && r.chat == tab.chat
    ensures m.ChatMessage? ==> r.chat == tab.chat + [m.msg] && r.markers == tab.markers
    ensures m.OtherMessage? ==> r == tab
  {
    match m
    case MarkerMessage(marker) => tab.(markers := tab.markers + [marker])
    case ChatMessage(msg) => tab.(chat := tab.chat + [msg])
    case OtherMessage => tab
  }

  /** Posting is skipped, silently, when there is no channel. */
  function Post(s: Session, m: Msg): (outbox: seq<Msg>)
    ensures s.channelOpen ==> outbox == s.outbox + [m]
    ensures !s.channelOpen ==> outbox == s.outbox
  {
    if s.channelOpen then s.outbox + [m] else s.outbox
  }

  /** A click on the board at (`x`, `y`): the new marker, with identifier
      `id`, is shown locally, posted to the other tabs and logged at `ts`. */
  function SendMarker(s: Session, x: real, y: real, id: string, ts: int, writeOk: bool): (r: Session)
    ensures r.tab.markers == s.tab.markers + [Marker(id, x, y)]
    ensures r.tab.chat == s.tab.chat && r.tab.input == s.tab.input && r.tab.role == s.tab.role
    ensures s.channelOpen ==> r.outbox == s.outbox + [MarkerMessage(Marker(id, x, y))]
    ensures !s.channelOpen ==> r.outbox == s.outbox
    ensures writeOk ==>
      EventLog.ReadLog(r.store) ==
        EventLog.ReadLog(s.store)
          + [EventLog.LogEvent(ts, EventLog.MarkerEvent, EventLog.MarkerPayload(Marker(id, x, y)))]
    ensures !writeOk ==> r.store == s.store
    ensures EventLog.OthersUnchanged(s.store, r.store)
    ensures r.channelOpen == s.channelOpen
  {
    var marker := Marker(id, x, y);
    Session(
      s.tab.(markers := s.tab.markers + [marker]),
      Post(s, MarkerMessage(marker)),
      EventLog.PushLog(s.store, EventLog.LogEvent(ts, EventLog.MarkerEvent, EventLog.MarkerPayload(marker)), writeOk),
      s.channelOpen)
  }

  /** "Send": blank input (whitespace only) does nothing at all. Otherwise a
      message from the tab's role with the trimmed input is shown locally,
      posted and logged, and the input box is cleared. `msgTs` and `logTs`
      are the two clock readings the source takes. */
  function SendChat(s: Session, id: string, msgTs: int, logTs: int, writeOk: bool): (r: Session)
    ensures Text.AllWhitespace(s.tab.input) ==> r == s
    ensures !Text.AllWhitespace(s.tab.input) ==>
      var msg := ChatMsg(id, s.tab.role, Text.Trim(s.tab.input), msgTs);
      && r.tab == TabState(s.tab.markers, s.tab.chat + [msg], "", s.tab.role)
      && msg.text != []
      && (s.channelOpen ==> r.outbox == s.outbox + [ChatMessage(msg)])
      && (!s.channelOpen ==> r.outbox == s.outbox)
      && (writeOk ==>
            EventLog.ReadLog(r.store) ==
              EventLog.ReadLog(s.store) + [EventLog.LogEvent(logTs, EventLog.ChatEvent, EventLog.ChatPayload(msg))])
      && (!writeOk ==> r.store == s.store)
      && r.channelOpen == s.channelOpen
    ensures EventLog.OthersUnchanged(s.store, r.store)
  {
    var text := Text.Trim(s.tab.input);
    Text.TrimEmptyIffBlank(s.tab.input);
    if text == [] then
      s
    else
      var msg := ChatMsg(id, s.tab.role, text, msgTs);
      Session(
        TabState(s.tab.markers, s.tab.chat + [msg], "", s.tab.role),
        Post(s, ChatMessage(msg)),
        EventLog.PushLog(s.store, EventLog.LogEvent(logTs, EventLog.ChatEvent, EventLog.ChatPayload(msg)), writeOk),
        s.channelOpen)
  }

  /** Everything that can happen to a tab. */
  datatype Action =
    | Deliver(m: Msg)
    | ClickBoard(x: real, y: real, markerId: string, ts: int, writeOk: bool)
    | PressSend(msgId: string, msgTs: int, logTs: int, writeOk: bool)
    | TypeInput(text: string)
    | PickRole(role: string)

  function Apply(s: Session, a: Action): (r: Session)
    ensures s.tab.markers <= r.tab.markers && s.tab.chat <= r.tab.chat
    ensures |r.tab.markers| + |r.tab.chat| <= |s.tab.markers| + |s.tab.chat| + 1
    ensures s.outbox <= r.outbox
    ensures EventLog.ReadLog(s.store) <= EventLog.ReadLog(r.store)
    ensures r.channelOpen == s.channelOpen
  {
    match a
    case Deliver(m) => s.(tab := Receive(s.tab, m))
    case ClickBoard(x, y, id, ts, ok) =>
      EventLog.PushLogExtends(s.store, EventLog.LogEvent(ts, EventLog.MarkerEvent, EventLog.MarkerPayload(Marker(id, x, y))), ok);
      SendMarker(s, x, y, id, ts, ok)
    case PressSend(id, msgTs, logTs, ok) => SendChat(s, id, msgTs, logTs, ok)
    case TypeInput(text) => s.(tab := s.tab.(input := text))
    case PickRole(role) => s.(tab := s.tab.(role := role))
  }

  /** The session after the actions `acts`, in order. Each action adds at
      most one marker or chat line, and nothing closes or opens the channel. */
  function Run(s: Session, acts: seq<Action>): (r: Session)
    ensures r.channelOpen == s.channelOpen
    ensures |r.tab.markers| + |r.tab.chat| <= |s.tab.markers| + |s.tab.chat| + |acts|
    decreases |acts|
  {
    if acts == [] then s else Run(Apply(s, acts[0]), acts[1..])
  }

  /** The marker and chat lists are append-only: whatever happens, earlier
      entries stay, in order, at the front. So do the posted messages and
      the readable log (a team session never clears it). */
  lemma {:induction false} RunAppendOnly(s: Session, acts: seq<Action>)
    ensures s.tab.markers <= Run(s, acts).tab.markers
    ensures s.tab.chat <= Run(s, acts).tab.chat
    ensures s.outbox <= Run(s, acts).outbox
    ensures EventLog.ReadLog(s.store) <= EventLog.ReadLog(Run(s, acts).store)
    decreases |acts|
  {
    if acts != [] {
      RunAppendOnly(Apply(s, acts[0]), acts[1..]);
    }
  }

  /** A marker dropped in tab A is in A's list at once, exactly once (no
      echo), and a tab B that receives A's post gains the same marker. */
  lemma MarkerReachesOtherTab(a: Session, b: TabState, x: real, y: real, id: string, ts: int, writeOk: bool)
    requires a.channelOpen
    ensures var a' := SendMarker(a, x, y, id, ts, writeOk);
      && |a'.outbox| == |a.outbox| + 1
      && a'.tab.markers == a.tab.markers + [Marker(id, x, y)]
      && Receive(b, a'.outbox[|a'.outbox| - 1]).markers == b.markers + [Marker(id, x, y)]
  {
  }

  /** The same for a chat line. */
  lemma ChatReachesOtherTab(a: Session, b: TabState, id: string, msgTs: int, logTs: int, writeOk: bool)
    requires a.channelOpen && !Text.AllWhitespace(a.tab.input)
    ensures var a' := SendChat(a, id, msgTs, logTs, writeOk);
      var msg := ChatMsg(id, a.tab.role, Text.Trim(a.tab.input), msgTs);
      && |a'.outbox| == |a.outbox| + 1
      && a'.tab.chat == a.tab.chat + [msg]
      && Receive(b, a'.outbox[|a'.outbox| - 1]).chat == b.chat + [msg]
  {
  }

  /** Without a channel a tab still updates its own board and log. */
  lemma NoChannelStillLocal(s: Session, x: real, y: real, id: string, ts: int)
    requires !s.channelOpen
    ensures var r := SendMarker(s, x, y, id, ts, true);
      && r.outbox == s.outbox
      && r.tab.markers == s.tab.markers + [Marker(id, x, y)]
      && |EventLog.ReadLog(r.store)| == |EventLog.ReadLog(s.store)| + 1
  {
  }
}
