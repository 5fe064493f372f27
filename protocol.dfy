/**
 * The session record of the chat client and the interpretation of one
 * inbound frame (the `onmessage` handler): a pure transition
 * `Apply(session, frame)`.
 */
module Protocol {
  import opened Wrappers

  datatype Status = Disconnected | Searching | Matched

  datatype Sender = Me | Partner | System

  /** A log entry `{from, text}`; the text is absent when an inbound frame carried none. */
  datatype Message = Message(from: Sender, text: Option<string>)

  /** The state the client renders: `status`, `roomId`, `messages` and `partnerTyping`. */
  datatype Session = Session(status: Status, roomId: Option<string>, messages: seq<Message>, partnerTyping: bool)

  const Initial: Session := Session(Disconnected, None, [], false)

  const DisconnectNotice: string := "Partner disconnected. Searching for a new match..."
  const NextNotice: string := "Finding someone new..."

  /**
   * A frame that parsed: its `type` and the two payload fields the client
   * reads. A record without a string `type`, and any parsed value that is not
   * a record, stands here as a record with an unrecognised `kind`.
   */
  datatype Data = Data(kind: string, roomId: Option<string>, text: Option<string>)

  /** An inbound frame: text that is not JSON, or the record it parsed to. */
  datatype Frame = Unparsable(raw: string) | Parsed(data: Data)

  /** The `type` values the handler reacts to. */
  const Kinds: set<string> := {"searching", "matched", "chat", "typing", "partner_disconnect", "system"}

  /** The record the handler dispatches on: unparsable text becomes a chat carrying that text. */
  function Decode(f: Frame): Data {
    match f
    case Unparsable(raw) => Data("chat", None, Some(raw))
    case Parsed(d) => d
  }

  predicate Recognised(f: Frame) {
    Decode(f).kind in Kinds
  }

  predicate IsMatch(f: Frame) {
    Decode(f).kind == "matched"
  }

  /** A `typing` frame also starts a timer that later clears `partnerTyping`. */
  predicate SchedulesTypingClear(f: Frame) {
    Decode(f).kind == "typing"
  }

  /**
   * The `onmessage` dispatch. No branch looks at the current status. Only a
   * `matched` frame empties the log; every other frame keeps it as a prefix
   * and adds at most one entry.
   */
  function Apply(s: Session, f: Frame): (r: Session)
    ensures IsMatch(f) ==> r.messages == []
    ensures !IsMatch(f) ==> s.messages <= r.messages && |r.messages| <= |s.messages| + 1
  {
    var d := Decode(f);
    if d.kind == "searching" then
      s.(status := Searching)
    else if d.kind == "matched" then
      s.(status := Matched, roomId := d.roomId, partnerTyping := false, messages := [])
    else if d.kind == "chat" then
      s.(messages := s.messages + [Message(Partner, d.text)], partnerTyping := false)
    else if d.kind == "typing" then
      s.(partnerTyping := true)
    else if d.kind == "partner_disconnect" then
      s.(status := Searching, roomId := None, partnerTyping := false,
         messages := s.messages + [Message(System, Some(DisconnectNotice))])
    else if d.kind == "system" then
      s.(messages := s.messages + [Message(System, d.text)])
    else
      s
  }

  /** `searching` changes the status alone; in particular the room is kept. */
  lemma SearchingFrame(s: Session, d: Data)
    requires d.kind == "searching"
    ensures Apply(s, Parsed(d)) == s.(status := Searching)
  {
  }

  /** `matched` starts a fresh room whatever the log held: empty log, no typing indicator. */
  lemma MatchedFrame(s: Session, d: Data)
    requires d.kind == "matched"
    ensures var r := Apply(s, Parsed(d));
      r.status == Matched && r.roomId == d.roomId && !r.partnerTyping && r.messages == []
  {
  }

  /** `chat`, in any status: one partner entry at the end, earlier entries in order, typing cleared, status and room kept. */
  lemma ChatFrame(s: Session, d: Data)
    requires d.kind == "chat"
    ensures var r := Apply(s, Parsed(d));
      r.status == s.status && r.roomId == s.roomId && !r.partnerTyping
      && |r.messages| == |s.messages| + 1
      && r.messages[..|s.messages|] == s.messages
      && r.messages[|s.messages|] == Message(Partner, d.text)
  {
  }

  /** Text that is not JSON is handled exactly as a `chat` frame carrying that text unmodified. */
  lemma UnparsableIsChat(s: Session, raw: string, room: Option<string>)
    ensures Apply(s, Unparsable(raw)) == Apply(s, Parsed(Data("chat", room, Some(raw))))
    ensures Apply(s, Unparsable(raw)).messages == s.messages + [Message(Partner, Some(raw))]
  {
  }

  /** `typing` only raises the indicator. */
  lemma TypingFrame(s: Session, d: Data)
    requires d.kind == "typing"
    ensures Apply(s, Parsed(d)) == s.(partnerTyping := true)
  {
  }

  /** `partner_disconnect`, in any status: back to searching with no room, typing cleared, one notice appended. */
  lemma PartnerDisconnectFrame(s: Session, d: Data)
    requires d.kind == "partner_disconnect"
    ensures var r := Apply(s, Parsed(d));
      r.status == Searching && r.roomId == None && !r.partnerTyping
      && r.messages == s.messages + [Message(System, Some(DisconnectNotice))]
  {
  }

  /** `system`, in any status: one system entry with the frame's text, nothing else changes. */
  lemma SystemFrame(s: Session, d: Data)
    requires d.kind == "system"
    ensures Apply(s, Parsed(d)) == s.(messages := s.messages + [Message(System, d.text)])
  {
  }

  /** Any other `type` leaves the whole session as it was. */
  lemma UnrecognisedFrame(s: Session, f: Frame)
    requires !Recognised(f)
    ensures Apply(s, f) == s
    ensures !SchedulesTypingClear(f)
  {
  }

  /**
   * A `searching` frame after a match leaves a room id behind, so "matched
   * exactly when a room is set" is not an invariant of this handler.
   */
  lemma SearchingKeepsRoom(room: string)
    ensures var matched := Apply(Initial, Parsed(Data("matched", Some(room), None)));
      var r := Apply(matched, Parsed(Data("searching", None, None)));
      r.status == Searching && r.roomId == Some(room)
  {
  }
}
