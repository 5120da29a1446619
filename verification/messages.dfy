/** The records the team board exchanges between tabs. */
module Messages {

  /** A board marker; `x` and `y` are percentages of the board's width and
      height. */
  datatype Marker = Marker(id: string, x: real, y: real)

  /** A chat line; `from` is the sender's role, `ts` milliseconds since the
      epoch. */
  datatype ChatMsg = ChatMsg(id: string, from: string, text: string, ts: int)

  /** What arrives on the team channel. The channel carries untyped data, so
      besides the two kinds a tab posts there is a third case for anything
      whose `type` tag is neither "marker" nor "chat". */
  datatype Msg =
    | MarkerMessage(marker: Marker)
    | ChatMessage(msg: ChatMsg)
    | OtherMessage
}
