/**
 * Runs of the client from its first render, each returning the state it
 * ends in. They follow from the contracts of `ChatClient` alone. The model
 * does not know which controls the page disables, so a run may call an
 * intent directly where no button or keystroke would reach it; the doc
 * comment says so where that happens.
 */
module Scenarios {
  import opened Wrappers
  import opened Protocol
  import opened Client

  /**
   * Connect, get queued, get matched in room "abc123", say "hi", hear "yo",
   * lose the partner: searching again without a room, the log holds the two
   * lines and the disconnect notice, and one chat frame went out.
   */
  method MatchChatDisconnect() returns (session: Session, sent: seq<Sent>)
    ensures session.status == Searching && session.roomId == None && !session.partnerTyping
    ensures session.messages == [Message(Me, Some("hi")), Message(Partner, Some("yo")),
                                 Message(System, Some(DisconnectNotice))]
    ensures sent == [Sent(0, OutChat("hi"))]
  {
    var c := MatchedClient("abc123");
    c.SetInput("hi");
    TrimmedHi();
    var o := c.SendMessage();
    assert o == Handed;
    assert c.messages == [Message(Me, Some("hi"))] && c.outbox == [Sent(0, OutChat("hi"))];
    c.OnMessage(0, Parsed(Data("chat", None, Some("yo"))));
    assert c.messages == [Message(Me, Some("hi")), Message(Partner, Some("yo"))];
    c.OnMessage(0, Parsed(Data("partner_disconnect", None, None)));
    session, sent := c.Snapshot(), c.outbox;
  }

  /** A client whose first socket opened, was queued and was matched in `room`. */
  method MatchedClient(room: string) returns (c: ChatClient)
    ensures fresh(c) && c.Valid()
    ensures c.Snapshot() == Session(Matched, Some(room), [], false)
    ensures c.sockets == [Open] && c.current == Some(0) && c.outbox == []
  {
    c := new ChatClient();
    c.Connect();
    c.OnOpen(0);
    assert c.sockets == [Open] && c.current == Some(0) && c.outbox == [];
    c.OnMessage(0, Parsed(Data("searching", None, None)));
    c.OnMessage(0, Parsed(Data("matched", Some(room), None)));
  }

  lemma TrimmedHi()
    ensures Text.Trim("hi") == "hi"
  {
    assert !Text.IsSpace('h') && !Text.IsSpace('i');
    assert Text.TrimEnd("hi") == "hi";
  }

  /**
   * Two `typing` frames, then the first clear fires: the indicator is already
   * off while the second clear is still pending (no debounce).
   */
  method TypingClearsAreIndependent() returns (typing: bool, pending: nat)
    ensures !typing && pending == 1
  {
    var c := new ChatClient();
    c.Connect();
    c.OnOpen(0);
    c.OnMessage(0, Parsed(Data("typing", None, None)));
    c.OnMessage(0, Parsed(Data("typing", None, None)));
    assert c.partnerTyping && c.pendingTypingClears == 2;
    c.FireTypingClear();
    typing, pending := c.partnerTyping, c.pendingTypingClears;
  }

  /** Once matched, a blank input sends nothing and logs nothing, and stays in the field. */
  method BlankInputIsNotSent() returns (sent: seq<Sent>, log: seq<Message>, field: string)
    ensures sent == [] && log == [] && field == "   "
  {
    var c := MatchedClient("r1");
    c.SetInput("   ");
    assert Text.AllSpace("   ");
    var o := c.SendMessage();
    sent, log, field := c.outbox, c.messages, c.input;
  }

  /**
   * A matched connection drops: disconnected but still holding the room id,
   * one reconnect pending; a second `connect` while the new socket is opening
   * creates nothing.
   */
  method CloseWhileMatched() returns (session: Session, reconnects: nat, socketCount: nat)
    ensures session.status == Disconnected && session.roomId == Some("r1")
    ensures reconnects == 0 && socketCount == 2
  {
    var c := new ChatClient();
    c.Connect();
    c.OnOpen(0);
    c.OnMessage(0, Parsed(Data("matched", Some("r1"), None)));
    c.OnError(0);
    c.OnClose(0);
    assert c.pendingReconnects == 1 && c.status == Disconnected;
    c.FireReconnect();
    assert c.current == Some(1) && c.sockets[1] == Connecting;
    c.Connect();
    session, reconnects, socketCount := c.Snapshot(), c.pendingReconnects, |c.sockets|;
  }

  /**
   * Next pressed while the first socket is still connecting, then a direct
   * `sendTyping` call (the page's input is disabled at that point, so no
   * keystroke makes it): both `send` calls throw, so no frame is recorded and
   * no notice is logged.
   */
  method NextWhileConnecting() returns (next: Outcome, typing: Outcome, sent: seq<Sent>, log: seq<Message>)
    ensures next == Threw && typing == Threw
    ensures sent == [] && log == []
  {
    var c := new ChatClient();
    c.Connect();
    next := c.NextPartner();
    typing := c.SendTyping();
    sent, log := c.outbox, c.messages;
  }

  /**
   * Unmounting closes the open socket, but its `onclose` schedules a
   * reconnect, and that reconnect creates a second socket after the client
   * has gone.
   */
  method ReconnectAfterUnmount() returns (socketCount: nat, newest: ReadyState, current: Option<nat>)
    ensures socketCount == 2 && newest == Connecting && current == Some(1)
  {
    var c := new ChatClient();
    c.Connect();
    c.OnOpen(0);
    c.Unmount();
    assert c.sockets == [Closing];
    c.OnClose(0);
    c.FireReconnect();
    socketCount, newest, current := |c.sockets|, c.sockets[|c.sockets| - 1], c.current;
  }
}
