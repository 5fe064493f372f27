/**
 * The client object: the session fields, the socket reference `wsRef`, the
 * frames handed to `send`, the pending timers, and the handlers and
 * intents that change them.
 */
module Client {
  import opened Wrappers
  import opened Text
  import opened Protocol

  /** The states of a WebSocket, in the order a socket passes through them. */
  datatype ReadyState = Connecting | Open | Closing | Closed

  /** The numeric `readyState`. */
  function Code(r: ReadyState): (n: nat)
    ensures n <= 3
    ensures (n == 0 || n == 1) <==> (r == Connecting || r == Open)
  {
    match r
    case Connecting => 0
    case Open => 1
    case Closing => 2
    case Closed => 3
  }

  /** A socket that is opening or open; the only kind `connect` declines to replace. */
  predicate IsLive(r: ReadyState) {
    r == Connecting || r == Open
  }

  /** `ws.close()`: an opening or open socket starts closing; otherwise nothing happens. */
  function AfterClose(r: ReadyState): (q: ReadyState)
    ensures !IsLive(q)
    ensures !IsLive(r) ==> q == r
  {
    if IsLive(r) then Closing else r
  }

  /** What the client hands to `send`: `{type:'chat', text}`, `{type:'typing'}` or `{type:'next'}`. */
  datatype OutFrame = OutChat(text: string) | OutTyping | OutNext

  /**
   * How a send intent ends: its guard returns (`Guarded`), `send` throws an
   * InvalidStateError because the socket is still connecting (`Threw`), or
   * the frame is handed to `send` (`Handed`).
   */
  datatype Outcome = Guarded | Threw | Handed

  /** One call of `send` that did not throw, on the socket with the given index. */
  datatype Sent = Sent(socket: nat, frame: OutFrame)

  class ChatClient {
    var status: Status
    var roomId: Option<string>
    var messages: seq<Message>
    var input: string
    var partnerTyping: bool
    /** Every socket created so far, by creation index. */
    var sockets: seq<ReadyState>
    /** `wsRef.current`, as an index into `sockets`. */
    var current: Option<nat>
    /** Every `send` call that did not throw, oldest first. */
    var outbox: seq<Sent>
    /** Reconnects scheduled by `onclose` and not yet fired. */
    var pendingReconnects: nat
    /** Typing-indicator clears scheduled by `typing` frames and not yet fired. */
    var pendingTypingClears: nat

    /** `wsRef` names a socket, and no socket other than it is opening or open. */
    ghost predicate Valid()
      reads this
    {
      (current.Some? ==> current.value < |sockets|)
      && forall i :: 0 <= i < |sockets| && current != Some(i) ==> !IsLive(sockets[i])
    }

    /** At most one socket at a time is opening or open. */
    lemma OneLiveSocket(i: nat, j: nat)
      requires Valid()
      requires i < |sockets| && j < |sockets| && IsLive(sockets[i]) && IsLive(sockets[j])
      ensures i == j
    {
    }

    function Snapshot(): Session
      reads this
    {
      Session(status, roomId, messages, partnerTyping)
    }

    /** `wsRef.current` exists and is opening or open. */
    predicate HasLiveSocket()
      reads this
      requires Valid()
    {
      current.Some? && IsLive(sockets[current.value])
    }

    /** The first render: the initial session, an empty input, no socket, nothing sent or scheduled. */
    constructor ()
      ensures Valid()
      ensures Snapshot() == Initial && input == ""
      ensures sockets == [] && current == None && outbox == []
      ensures pendingReconnects == 0 && pendingTypingClears == 0
    {
      status, roomId, messages, partnerTyping := Disconnected, None, [], false;
      input := "";
      sockets, current, outbox := [], None, [];
      pendingReconnects, pendingTypingClears := 0, 0;
    }

    /**
     * `connect`, called on mount and by each reconnect: unless the current
     * socket is opening or open, a new socket is created and becomes current.
     */
    method Connect()
      requires Valid()
      modifies this
      ensures Valid()
      ensures old(HasLiveSocket()) ==> sockets == old(sockets) && current == old(current)
      ensures !old(HasLiveSocket()) ==>
        sockets == old(sockets) + [Connecting] && current == Some(|old(sockets)|)
      ensures Snapshot() == old(Snapshot()) && input == old(input) && outbox == old(outbox)
      ensures pendingReconnects == old(pendingReconnects) && pendingTypingClears == old(pendingTypingClears)
    {
      if current.Some? && (Code(sockets[current.value]) == 0 || Code(sockets[current.value]) == 1) {
        return;
      }
      sockets := sockets + [Connecting];
      current := Some(|sockets| - 1);
    }

    /** `onopen` of socket `id`: it is open and the client is searching. */
    method OnOpen(id: nat)
      requires Valid() && id < |sockets| && sockets[id] == Connecting
      modifies this
      ensures Valid()
      ensures current == old(current) && current == Some(id)
      ensures sockets == old(sockets)[id := Open]
      ensures Snapshot() == old(Snapshot()).(status := Searching)
      ensures input == old(input) && outbox == old(outbox)
      ensures pendingReconnects == old(pendingReconnects) && pendingTypingClears == old(pendingTypingClears)
    {
      sockets := sockets[id := Open];
      status := Searching;
    }

    /**
     * `onmessage` of an open socket `id`, which the object invariant makes
     * the current one: the session moves by `Apply`, and a `typing` frame
     * schedules one more clear without cancelling the earlier ones.
     */
    method OnMessage(id: nat, f: Frame)
      requires Valid() && id < |sockets| && sockets[id] == Open
      modifies this
      ensures Valid()
      ensures Snapshot() == Apply(old(Snapshot()), f)
      ensures pendingTypingClears == old(pendingTypingClears) + (if SchedulesTypingClear(f) then 1 else 0)
      ensures sockets == old(sockets) && current == old(current) && current == Some(id)
      ensures input == old(input) && outbox == old(outbox) && pendingReconnects == old(pendingReconnects)
    {
      var next := Apply(Snapshot(), f);
      status, roomId, messages, partnerTyping := next.status, next.roomId, next.messages, next.partnerTyping;
      if Decode(f).kind == "typing" {
        pendingTypingClears := pendingTypingClears + 1;
      }
    }

    /**
     * `onclose` of socket `id`, current or not: it is closed, the status is
     * disconnected and exactly one reconnect is scheduled; the room and the
     * log are kept.
     */
    method OnClose(id: nat)
      requires Valid() && id < |sockets| && sockets[id] != Closed
      modifies this
      ensures Valid()
      ensures sockets == old(sockets)[id := Closed] && current == old(current)
      ensures Snapshot() == old(Snapshot()).(status := Disconnected)
      ensures pendingReconnects == old(pendingReconnects) + 1
      ensures input == old(input) && outbox == old(outbox) && pendingTypingClears == old(pendingTypingClears)
    {
      sockets := sockets[id := Closed];
      status := Disconnected;
      pendingReconnects := pendingReconnects + 1;
    }

    /** `onerror` of socket `id`: the socket is closed by `ws.close()`; its `onclose` follows. */
    method OnError(id: nat)
      requires Valid() && id < |sockets| && sockets[id] != Closed
      modifies this
      ensures Valid()
      ensures sockets == old(sockets)[id := AfterClose(old(sockets)[id])] && current == old(current)
      ensures Snapshot() == old(Snapshot()) && input == old(input) && outbox == old(outbox)
      ensures pendingReconnects == old(pendingReconnects) && pendingTypingClears == old(pendingTypingClears)
    {
      sockets := sockets[id := AfterClose(sockets[id])];
    }

    /** A scheduled reconnect fires: it is no longer pending, and `connect` runs. */
    method FireReconnect()
      requires Valid() && pendingReconnects > 0
      modifies this
      ensures Valid()
      ensures pendingReconnects == old(pendingReconnects) - 1
      ensures old(HasLiveSocket()) ==> sockets == old(sockets) && current == old(current)
      ensures !old(HasLiveSocket()) ==>
        sockets == old(sockets) + [Connecting] && current == Some(|old(sockets)|)
      ensures Snapshot() == old(Snapshot()) && input == old(input) && outbox == old(outbox)
      ensures pendingTypingClears == old(pendingTypingClears)
    {
      pendingReconnects := pendingReconnects - 1;
      Connect();
    }

    /** A scheduled typing clear fires: the indicator is off, and only that one clear stops being pending. */
    method FireTypingClear()
      requires Valid() && pendingTypingClears > 0
      modifies this
      ensures Valid()
      ensures pendingTypingClears == old(pendingTypingClears) - 1
      ensures Snapshot() == old(Snapshot()).(partnerTyping := false)
      ensures sockets == old(sockets) && current == old(current)
      ensures input == old(input) && outbox == old(outbox) && pendingReconnects == old(pendingReconnects)
    {
      pendingTypingClears := pendingTypingClears - 1;
      partnerTyping := false;
    }

    /** The input field's `onChange`. */
    method SetInput(text: string)
      requires Valid()
      modifies this
      ensures Valid()
      ensures input == text
      ensures Snapshot() == old(Snapshot()) && outbox == old(outbox)
      ensures sockets == old(sockets) && current == old(current)
      ensures pendingReconnects == old(pendingReconnects) && pendingTypingClears == old(pendingTypingClears)
    {
      input := text;
    }

    /**
     * How a send intent ended: stopped by its own guard, stopped by `send`
     * throwing because the current socket is still connecting, or the frame
     * was handed to `send`.
     */
    function Attempt(guarded: bool): Outcome
      reads this
      requires Valid()
    {
      if guarded || current.None? then Guarded
      else if sockets[current.value] == Connecting then Threw
      else Handed
    }

    /**
     * `sendMessage`: with a non-blank input and a socket that is not still
     * connecting, one chat frame carrying the trimmed input is sent, the same
     * text is echoed into the log as the client's own, and the input is
     * cleared. With no socket or a blank input the guard returns; on a
     * connecting socket `send` throws before the echo. Either way nothing at
     * all changes and no frame is recorded.
     */
    method SendMessage() returns (o: Outcome)
      requires Valid()
      modifies this
      ensures Valid()
      ensures o == old(Attempt(Trim(input) == []))
      ensures o == Handed ==>
        outbox == old(outbox) + [Sent(old(current).value, OutChat(Trim(old(input))))]
        && messages == old(messages) + [Message(Me, Some(Trim(old(input))))]
        && input == ""
      ensures o != Handed ==> outbox == old(outbox) && messages == old(messages) && input == old(input)
      ensures status == old(status) && roomId == old(roomId) && partnerTyping == old(partnerTyping)
      ensures sockets == old(sockets) && current == old(current)
      ensures pendingReconnects == old(pendingReconnects) && pendingTypingClears == old(pendingTypingClears)
    {
      var text := Trim(input);
      if text == [] || current.None? {
        return Guarded;
      }
      if sockets[current.value] == Connecting {
        return Threw;
      }
      outbox := outbox + [Sent(current.value, OutChat(text))];
      messages := messages + [Message(Me, Some(text))];
      input := "";
      o := Handed;
    }

    /**
     * `sendTyping`: exactly one typing frame when a socket exists and is not
     * still connecting; nothing otherwise (a connecting socket's `send` throws).
     */
    method SendTyping() returns (o: Outcome)
      requires Valid()
      modifies this
      ensures Valid()
      ensures o == old(Attempt(false))
      ensures o == Handed ==> outbox == old(outbox) + [Sent(old(current).value, OutTyping)]
      ensures o != Handed ==> outbox == old(outbox)
      ensures Snapshot() == old(Snapshot()) && input == old(input)
      ensures sockets == old(sockets) && current == old(current)
      ensures pendingReconnects == old(pendingReconnects) && pendingTypingClears == old(pendingTypingClears)
    {
      if current.None? {
        return Guarded;
      }
      if sockets[current.value] == Connecting {
        return Threw;
      }
      outbox := outbox + [Sent(current.value, OutTyping)];
      o := Handed;
    }

    /**
     * `nextPartner`: when a socket exists and is not still connecting,
     * exactly one next frame and a local notice; on a connecting socket
     * `send` throws before the notice. The status and the room wait for the
     * server's answer in every case.
     */
    method NextPartner() returns (o: Outcome)
      requires Valid()
      modifies this
      ensures Valid()
      ensures o == old(Attempt(false))
      ensures o == Handed ==>
        outbox == old(outbox) + [Sent(old(current).value, OutNext)]
        && messages == old(messages) + [Message(System, Some(NextNotice))]
      ensures o != Handed ==> outbox == old(outbox) && messages == old(messages)
      ensures status == old(status) && roomId == old(roomId) && partnerTyping == old(partnerTyping)
      ensures input == old(input) && sockets == old(sockets) && current == old(current)
      ensures pendingReconnects == old(pendingReconnects) && pendingTypingClears == old(pendingTypingClears)
    {
      if current.None? {
        return Guarded;
      }
      if sockets[current.value] == Connecting {
        return Threw;
      }
      outbox := outbox + [Sent(current.value, OutNext)];
      messages := messages + [Message(System, Some(NextNotice))];
      o := Handed;
    }

    /**
     * The mount effect's cleanup: the current socket, if any, is closed; no
     * timer is cancelled. That socket's `onclose` still schedules a reconnect,
     * and the reconnect's `connect` opens a new socket that nothing closes
     * (`Scenarios.ReconnectAfterUnmount`).
     */
    method Unmount()
      requires Valid()
      modifies this
      ensures Valid()
      ensures old(current).Some? ==>
        sockets == old(sockets)[old(current).value := AfterClose(old(sockets)[old(current).value])]
      ensures old(current).None? ==> sockets == old(sockets)
      ensures current == old(current)
      ensures Snapshot() == old(Snapshot()) && input == old(input) && outbox == old(outbox)
      ensures pendingReconnects == old(pendingReconnects) && pendingTypingClears == old(pendingTypingClears)
    {
      if current.Some? {
        sockets := sockets[current.value := AfterClose(sockets[current.value])];
      }
    }
  }
}
