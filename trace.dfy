/**
 * Frames arriving one after another: `Run(s, fs)` applies the frames of `fs`
 * in order. The lemmas say what a whole sequence of frames leaves in the log,
 * in the room and in the status, by reference to the frames themselves.
 */
module Trace {
  import opened Wrappers
  import opened Protocol

  /** `fs` without its last frame. */
  function Init(fs: seq<Frame>): seq<Frame>
    requires fs != []
  {
    fs[..|fs| - 1]
  }

  function Last(fs: seq<Frame>): Frame
    requires fs != []
  {
    fs[|fs| - 1]
  }

  /** The session after `fs[0]`, then `fs[1]`, … have been handled. */
  function Run(s: Session, fs: seq<Frame>): Session
    decreases |fs|
  {
    if fs == [] then s else Apply(Run(s, Init(fs)), Last(fs))
  }

  /** The log entries a frame adds when it is not a `matched` frame. */
  function Posted(f: Frame): seq<Message> {
    var d := Decode(f);
    if d.kind == "chat" then [Message(Partner, d.text)]
    else if d.kind == "partner_disconnect" then [Message(System, Some(DisconnectNotice))]
    else if d.kind == "system" then [Message(System, d.text)]
    else []
  }

  /** The entries the frames of `fs` add, in arrival order. */
  function PostedAll(fs: seq<Frame>): seq<Message>
    decreases |fs|
  {
    if fs == [] then [] else PostedAll(Init(fs)) + Posted(Last(fs))
  }

  /** The frames of `fs` whose `type` the handler reacts to, in order. */
  function Relevant(fs: seq<Frame>): seq<Frame>
    decreases |fs|
  {
    if fs == [] then []
    else if Recognised(Last(fs)) then Relevant(Init(fs)) + [Last(fs)]
    else Relevant(Init(fs))
  }

  /** Frames that set the room: `matched` and `partner_disconnect`. */
  predicate SetsRoom(f: Frame) {
    Decode(f).kind == "matched" || Decode(f).kind == "partner_disconnect"
  }

  /** The room such a frame leaves. */
  function RoomSetBy(f: Frame): Option<string> {
    if Decode(f).kind == "matched" then Decode(f).roomId else None
  }

  /** Frames that set the status: `searching`, `matched` and `partner_disconnect`. */
  predicate SetsStatus(f: Frame) {
    Decode(f).kind == "searching" || SetsRoom(f)
  }

  function StatusSetBy(f: Frame): Status {
    if Decode(f).kind == "matched" then Matched else Searching
  }

  lemma InitOfAppend(a: seq<Frame>, b: seq<Frame>)
    requires b != []
    ensures a + b != [] && Init(a + b) == a + Init(b) && Last(a + b) == Last(b)
  {
    assert (a + b)[..|a + b| - 1] == a + b[..|b| - 1];
  }

  /** Handling `a` and then `b` is handling `a + b`. */
  lemma {:induction false} RunAppend(s: Session, a: seq<Frame>, b: seq<Frame>)
    ensures Run(s, a + b) == Run(Run(s, a), b)
    decreases |b|
  {
    if b == [] {
      assert a + b == a;
    } else {
      InitOfAppend(a, b);
      RunAppend(s, a, Init(b));
    }
  }

  /** One frame that is not `matched` appends exactly what `Posted` says. */
  lemma ApplyPosts(s: Session, f: Frame)
    requires !IsMatch(f)
    ensures Apply(s, f).messages == s.messages + Posted(f)
  {
  }

  /** Without a `matched` frame the log only grows, by the frames' own entries in arrival order. */
  lemma {:induction false} LogWithoutMatch(s: Session, fs: seq<Frame>)
    requires forall i :: 0 <= i < |fs| ==> !IsMatch(fs[i])
    ensures Run(s, fs).messages == s.messages + PostedAll(fs)
    decreases |fs|
  {
    if fs != [] {
      LogWithoutMatch(s, Init(fs));
      ApplyPosts(Run(s, Init(fs)), Last(fs));
    }
  }

  /** After the last `matched` frame, the log holds exactly what the later frames added. */
  lemma {:induction false} LogSinceLastMatch(s: Session, fs: seq<Frame>, k: nat)
    requires k < |fs| && IsMatch(fs[k])
    requires forall j :: k < j < |fs| ==> !IsMatch(fs[j])
    ensures Run(s, fs).messages == PostedAll(fs[k + 1..])
  {
    var before, after := fs[..k + 1], fs[k + 1..];
    assert fs == before + after;
    RunAppend(s, before, after);
    assert Init(before) + [Last(before)] == before;
    assert Run(s, before).messages == [];
    forall i | 0 <= i < |after| ensures !IsMatch(after[i]) {
      assert after[i] == fs[k + 1 + i];
    }
    LogWithoutMatch(Run(s, before), after);
  }

  /** Frames the handler does not recognise can be dropped from any sequence without effect. */
  lemma {:induction false} IgnoredFramesDropOut(s: Session, fs: seq<Frame>)
    ensures Run(s, fs) == Run(s, Relevant(fs))
    decreases |fs|
  {
    if fs != [] {
      IgnoredFramesDropOut(s, Init(fs));
      if Recognised(Last(fs)) {
        var r := Relevant(Init(fs)) + [Last(fs)];
        assert Init(r) == Relevant(Init(fs)) && Last(r) == Last(fs);
      }
    }
  }

  /** With no `matched` or `partner_disconnect` frame the room stays what it was. */
  lemma {:induction false} RoomKept(s: Session, fs: seq<Frame>)
    requires forall i :: 0 <= i < |fs| ==> !SetsRoom(fs[i])
    ensures Run(s, fs).roomId == s.roomId
    decreases |fs|
  {
    if fs != [] {
      RoomKept(s, Init(fs));
    }
  }

  /** Otherwise the last such frame decides the room: its `roomId` for `matched`, none for `partner_disconnect`. */
  lemma {:induction false} RoomAfterLastSetter(s: Session, fs: seq<Frame>, k: nat)
    requires k < |fs| && SetsRoom(fs[k])
    requires forall j :: k < j < |fs| ==> !SetsRoom(fs[j])
    ensures Run(s, fs).roomId == RoomSetBy(fs[k])
  {
    var before, after := fs[..k + 1], fs[k + 1..];
    assert fs == before + after;
    RunAppend(s, before, after);
    assert Init(before) + [Last(before)] == before;
    forall i | 0 <= i < |after| ensures !SetsRoom(after[i]) {
      assert after[i] == fs[k + 1 + i];
    }
    RoomKept(Run(s, before), after);
  }

  /** With no `searching`, `matched` or `partner_disconnect` frame the status stays what it was. */
  lemma {:induction false} StatusKept(s: Session, fs: seq<Frame>)
    requires forall i :: 0 <= i < |fs| ==> !SetsStatus(fs[i])
    ensures Run(s, fs).status == s.status
    decreases |fs|
  {
    if fs != [] {
      StatusKept(s, Init(fs));
    }
  }

  /** Otherwise the last such frame decides the status. */
  lemma {:induction false} StatusAfterLastSetter(s: Session, fs: seq<Frame>, k: nat)
    requires k < |fs| && SetsStatus(fs[k])
    requires forall j :: k < j < |fs| ==> !SetsStatus(fs[j])
    ensures Run(s, fs).status == StatusSetBy(fs[k])
  {
    var before, after := fs[..k + 1], fs[k + 1..];
    assert fs == before + after;
    RunAppend(s, before, after);
    assert Init(before) + [Last(before)] == before;
    forall i | 0 <= i < |after| ensures !SetsStatus(after[i]) {
      assert after[i] == fs[k + 1 + i];
    }
    StatusKept(Run(s, before), after);
  }
}
