/** The per-connection protocol of the chat service (src/ws/handler.rs): the
    command interpreter behind `process_text_msg`, the `chat_ws` event loop with
    its heartbeat, the teardown, and the expansion of `notify_update_rooms` into
    system messages. Calls into the chat server are recorded as an effect log;
    JSON bodies are opaque. */
module Handler {
  import opened Wrappers
  import opened Strings
  import Hub
  import Seqs

  /** How long a client may stay silent before it is disconnected, in milliseconds. */
  const CLIENT_TIMEOUT: int := 10000
  /** The room every session starts in and may not quit. */
  const DEFAULT_ROOM: string := "main"

  const UPDATE_ROOMS_PRE: string := "update_rooms:"
  const UPDATE_SESSION_PRE: string := "update_session:"
  const MESSAGE_PRE: string := "message:"
  /** The head of every usage error sent back to the client. */
  const NOTICE_PRE: string := "!!! "

  // ---------------------------------------------------------------------------
  // Wire texts

  /** The chat content of a `MessageContent`; its `id` and `time` are generated
      and left out. */
  datatype MessageContent = MessageContent(room: string, fromId: string, fromName: string, content: string)

  /** A text frame sent to the client. */
  datatype Text =
    | UpdateSession(room: string, name: string)
    | UpdateRoomsView(view: Hub.UpdateRooms)
    | Message(message: MessageContent)
    | Notice(reason: string)
    | Relay(raw: string)

  /** The text as it goes on the wire: the tag followed by the serialised body
      `json`, which the model treats as opaque; a notice is `"!!! "` and its reason;
      a relayed chat string is forwarded verbatim. */
  function Render(t: Text, json: string): (s: string)
    ensures t.UpdateSession? ==> StartsWith(s, UPDATE_SESSION_PRE) && s[|UPDATE_SESSION_PRE|..] == json
    ensures t.UpdateRoomsView? ==> StartsWith(s, UPDATE_ROOMS_PRE) && s[|UPDATE_ROOMS_PRE|..] == json
    ensures t.Message? ==> StartsWith(s, MESSAGE_PRE) && s[|MESSAGE_PRE|..] == json
    ensures t.Notice? ==> StartsWith(s, NOTICE_PRE) && s[|NOTICE_PRE|..] == t.reason
    ensures t.Relay? ==> s == t.raw
  {
    match t
    case UpdateSession(_, _) => UPDATE_SESSION_PRE + json
    case UpdateRoomsView(_) => UPDATE_ROOMS_PRE + json
    case Message(_) => MESSAGE_PRE + json
    case Notice(reason) => NOTICE_PRE + reason
    case Relay(raw) => raw
  }

  datatype Kind = SessionKind | RoomsKind | MessageKind | NoticeKind | UnknownKind

  function KindOf(t: Text): Kind
  {
    match t
    case UpdateSession(_, _) => SessionKind
    case UpdateRoomsView(_) => RoomsKind
    case Message(_) => MessageKind
    case Notice(_) => NoticeKind
    case Relay(_) => UnknownKind
  }

  /** The fixed head of each kind of text; a text of no known kind has none. */
  function Head(k: Kind): string
  {
    match k
    case SessionKind => UPDATE_SESSION_PRE
    case RoomsKind => UPDATE_ROOMS_PRE
    case MessageKind => MESSAGE_PRE
    case NoticeKind => NOTICE_PRE
    case UnknownKind => ""
  }

  /** What follows the head: the serialised body, or a notice's reason. */
  function Payload(t: Text, json: string): string
  {
    match t
    case Notice(reason) => reason
    case Relay(raw) => raw
    case _ => json
  }

  /** How a client tells the texts apart: by their fixed heads. */
  function Classify(s: string): Kind
  {
    if StartsWith(s, UPDATE_ROOMS_PRE) then RoomsKind
    else if StartsWith(s, UPDATE_SESSION_PRE) then SessionKind
    else if StartsWith(s, MESSAGE_PRE) then MessageKind
    else if StartsWith(s, NOTICE_PRE) then NoticeKind
    else UnknownKind
  }

  lemma StartsWithConcat(p: string, rest: string)
    ensures StartsWith(p + rest, p)
  {
    assert (p + rest)[..|p|] == p;
  }

  /** The heads are distinct enough that the kind of every text the handler
      produces itself can be read back from its first characters, whatever the
      serialised body; stripping the head of the kind read back then leaves
      exactly the body, or the notice's reason. */
  lemma ClassifyRender(t: Text, json: string)
    requires !t.Relay?
    ensures var s, k := Render(t, json), Classify(Render(t, json));
      k == KindOf(t) && |Head(k)| <= |s| && s[|Head(k)|..] == Payload(t, json)
  {
    var s := Render(t, json);
    match t
    case UpdateSession(_, _) =>
      StartsWithConcat(UPDATE_SESSION_PRE, json);
      assert s[7] == 's' != UPDATE_ROOMS_PRE[7];
    case UpdateRoomsView(_) =>
      StartsWithConcat(UPDATE_ROOMS_PRE, json);
    case Message(_) =>
      StartsWithConcat(MESSAGE_PRE, json);
      assert s[0] == 'm';
    case Notice(reason) =>
      StartsWithConcat(NOTICE_PRE, reason);
      assert s[0] == '!';
  }

  // ---------------------------------------------------------------------------
  // The effect log

  type Bytes = seq<bv8>

  /** The payload of every heartbeat ping, `b"ping"`. */
  const PING_PAYLOAD: Bytes := [0x70, 0x69, 0x6E, 0x67]

  /** The reason carried by a close frame; passed through unchanged. */
  datatype CloseReason = CloseReason(code: int, description: Option<string>)

  /** What the handler does to the outside world, in order: the chat-server calls,
      the frames it sends on its own session, and the notifications it asks for. */
  datatype Effect =
    | Connect(sessionId: string, name: string)
    | Disconnect(sessionId: string)
    | JoinRoom(sessionId: string, room: string)
    | QuitRoom(sessionId: string, room: string)
    | ChangeName(sessionId: string, name: string)
    | SendMessage(room: string, sessionId: string, text: Text)
    | SendSystemMessage(room: string, toId: string, text: Text)
    | NotifyUpdateRooms(target: Option<string>, sessionId: string)
    | NotifyUpdateRoomsToSelf(sessionId: string)
    | Send(text: Text)
    | PongFrame(payload: Bytes)
    | PingFrame(payload: Bytes)
    | CloseFrame(reason: Option<CloseReason>)

  /** True of the `join_room`, `quit_room` and `change_name` calls. */
  predicate Mutates(e: Effect)
  {
    e.JoinRoom? || e.QuitRoom? || e.ChangeName?
  }

  // ---------------------------------------------------------------------------
  // Commands

  /** A client text after trimming and splitting off the keyword. */
  datatype Command =
    | List
    | Join(room: Option<string>)
    | Quit(room: Option<string>)
    | Rename(name: Option<string>)
    | Unknown(line: string)
    | Chat(line: string)

  predicate IsKeyword(w: string)
  {
    w == "/list" || w == "/join" || w == "/quit" || w == "/name"
  }

  /** The first half of `process_text_msg`: trim, then either a chat line or a
      `/keyword` split off at the first space. */
  function Parse(text: string): (c: Command)
    ensures c.Chat? <==> !StartsWith(Trim(text), "/")
    ensures c.Chat? || c.Unknown? ==> c.line == Trim(text)
  {
    ParseTrimmed(Trim(text))
  }

  function ParseTrimmed(msg: string): (c: Command)
    ensures c.Chat? <==> !StartsWith(msg, "/")
    ensures c.Chat? || c.Unknown? ==> c.line == msg
  {
    if !StartsWith(msg, "/") then Chat(msg)
    else
      var (keyword, arg) := SplitOnce(msg, ' ');
      Dispatch(keyword, arg, msg)
  }

  /** The match on the keyword. */
  function Dispatch(keyword: string, arg: Option<string>, msg: string): (c: Command)
    ensures !c.Chat?
    ensures c.List? <==> keyword == "/list"
    ensures c.Unknown? <==> !IsKeyword(keyword)
    ensures c.Unknown? ==> c.line == msg
  {
    if keyword == "/list" then List
    else if keyword == "/join" then Join(arg)
    else if keyword == "/quit" then Quit(arg)
    else if keyword == "/name" then Rename(arg)
    else Unknown(msg)
  }

  /** What `Parse` keeps of the text: a chat line is the trimmed text; `/list`
      ignores anything after its keyword; every other command is the trimmed
      text read back. */
  lemma ParseKeepsTheText(text: string)
    ensures Parse(text).Chat? <==> !StartsWith(Trim(text), "/")
    ensures Parse(text).List? ==> SplitOnce(Trim(text), ' ').0 == "/list"
    ensures !Parse(text).List? ==> Line(Parse(text)) == Trim(text)
  {
    var msg := Trim(text);
    assert Parse(text) == ParseTrimmed(msg);
    if StartsWith(msg, "/") {
      var (keyword, arg) := SplitOnce(msg, ' ');
      assert msg == keyword + ArgText(arg);
      DispatchKeepsTheText(keyword, arg, msg);
    }
  }

  /** `Dispatch` never produces a chat line, and the command it produces reads
      back as the line it was given. */
  lemma DispatchKeepsTheText(keyword: string, arg: Option<string>, msg: string)
    requires msg == keyword + ArgText(arg)
    ensures !Dispatch(keyword, arg, msg).Chat?
    ensures Dispatch(keyword, arg, msg).List? ==> keyword == "/list"
    ensures !Dispatch(keyword, arg, msg).List? ==> Line(Dispatch(keyword, arg, msg)) == msg
  {
    if keyword == "/list" {
    } else if keyword == "/join" {
      assert Dispatch(keyword, arg, msg) == Join(arg);
    } else if keyword == "/quit" {
      assert Dispatch(keyword, arg, msg) == Quit(arg);
    } else if keyword == "/name" {
      assert Dispatch(keyword, arg, msg) == Rename(arg);
    }
  }

  /** The argument as it stands after the keyword. */
  function ArgText(arg: Option<string>): string
  {
    match arg
    case None => ""
    case Some(a) => " " + a
  }

  /** The canonical text of a command. */
  function Line(c: Command): string
  {
    match c
    case List => "/list"
    case Join(arg) => "/join" + ArgText(arg)
    case Quit(arg) => "/quit" + ArgText(arg)
    case Rename(arg) => "/name" + ArgText(arg)
    case Unknown(line) => line
    case Chat(line) => line
  }

  /** An argument survives the trim when it is non-empty and does not end in
      whitespace. */
  predicate ArgWellFormed(arg: Option<string>)
  {
    arg.Some? ==> arg.value != [] && !IsWhitespace(arg.value[|arg.value| - 1])
  }

  /** The commands a client can actually send. */
  predicate WellFormed(c: Command)
  {
    match c
    case List => true
    case Join(arg) => ArgWellFormed(arg)
    case Quit(arg) => ArgWellFormed(arg)
    case Rename(arg) => ArgWellFormed(arg)
    case Unknown(line) =>
      Trim(line) == line && StartsWith(line, "/") && !IsKeyword(SplitOnce(line, ' ').0)
    case Chat(line) => Trim(line) == line && !StartsWith(line, "/")
  }

  /** Every command parses back from its canonical text. */
  lemma ParseLine(c: Command)
    requires WellFormed(c)
    ensures Parse(Line(c)) == c
  {
    if c.List? {
      ParseListLine();
    } else if c.Join? {
      ParseJoinLine(c.room);
    } else if c.Quit? {
      ParseQuitLine(c.room);
    } else if c.Rename? {
      ParseNameLine(c.name);
    } else if c.Unknown? {
      ParseUnknownLine(c.line);
    } else {
      ParseChatLine(c.line);
    }
  }

  lemma ParseListLine()
    ensures Parse("/list") == List
  {
    var s := "/list" + ArgText(None);
    assert s == "/list";
    ParseKeyword("/list", None);
    assert Parse(s) == Dispatch("/list", None, s);
    DispatchKeywords(None, s);
  }

  /** Each keyword dispatches to its own command: the four differ in their
      second character. */
  lemma DispatchKeywords(arg: Option<string>, s: string)
    ensures Dispatch("/list", arg, s) == List
    ensures Dispatch("/join", arg, s) == Join(arg)
    ensures Dispatch("/quit", arg, s) == Quit(arg)
    ensures Dispatch("/name", arg, s) == Rename(arg)
  {
    assert "/list"[1] == 'l' && "/join"[1] == 'j' && "/quit"[1] == 'q' && "/name"[1] == 'n';
  }

  lemma ParseJoinLine(arg: Option<string>)
    requires ArgWellFormed(arg)
    ensures Parse("/join" + ArgText(arg)) == Join(arg)
  {
    var s := "/join" + ArgText(arg);
    ParseKeyword("/join", arg);
    assert Parse(s) == Dispatch("/join", arg, s);
    DispatchKeywords(arg, s);
  }

  lemma ParseQuitLine(arg: Option<string>)
    requires ArgWellFormed(arg)
    ensures Parse("/quit" + ArgText(arg)) == Quit(arg)
  {
    var s := "/quit" + ArgText(arg);
    ParseKeyword("/quit", arg);
    assert Parse(s) == Dispatch("/quit", arg, s);
    DispatchKeywords(arg, s);
  }

  lemma ParseNameLine(arg: Option<string>)
    requires ArgWellFormed(arg)
    ensures Parse("/name" + ArgText(arg)) == Rename(arg)
  {
    var s := "/name" + ArgText(arg);
    ParseKeyword("/name", arg);
    assert Parse(s) == Dispatch("/name", arg, s);
    DispatchKeywords(arg, s);
  }

  lemma ParseUnknownLine(line: string)
    requires WellFormed(Unknown(line))
    ensures Parse(Line(Unknown(line))) == Unknown(line)
  {
    assert Line(Unknown(line)) == line;
  }

  lemma ParseChatLine(line: string)
    requires WellFormed(Chat(line))
    ensures Parse(line) == Chat(line)
  {
  }

  /** The keywords' shape: a `/` first, no space, no whitespace at the end. */
  predicate KeywordShaped(keyword: string)
  {
    keyword != [] && keyword[0] == '/' && ' ' !in keyword && !IsWhitespace(keyword[|keyword| - 1])
  }

  /** A keyword line with a well-formed argument survives the trim... */
  lemma KeywordLineTrimmed(keyword: string, arg: Option<string>)
    requires KeywordShaped(keyword) && ArgWellFormed(arg)
    ensures Trim(keyword + ArgText(arg)) == keyword + ArgText(arg)
  {
    var s := keyword + ArgText(arg);
    assert s[0] == keyword[0];
    assert s[|s| - 1] == if arg.Some? then arg.value[|arg.value| - 1] else keyword[|keyword| - 1];
    TrimMatchesFixed(s, Whitespace);
  }

  /** ...and splits back into its keyword and argument. */
  lemma KeywordLineSplits(keyword: string, arg: Option<string>)
    requires ' ' !in keyword
    ensures SplitOnce(keyword + ArgText(arg), ' ') == (keyword, arg)
  {
    match arg
    case None =>
      assert keyword + ArgText(arg) == keyword;
      SplitOnceNoSeparator(keyword, ' ');
    case Some(a) =>
      assert keyword + ArgText(arg) == keyword + [' '] + a;
      SplitOnceUnique(keyword, ' ', a);
  }

  /** A keyword line parses to whatever its keyword dispatches to. */
  lemma ParseKeyword(keyword: string, arg: Option<string>)
    requires KeywordShaped(keyword) && ArgWellFormed(arg)
    ensures Parse(keyword + ArgText(arg)) == Dispatch(keyword, arg, keyword + ArgText(arg))
  {
    var s := keyword + ArgText(arg);
    KeywordLineTrimmed(keyword, arg);
    KeywordLineSplits(keyword, arg);
    KeywordLineStartsWithSlash(keyword, ArgText(arg));
    ParseTrimmedCommand(s, keyword, arg);
  }

  lemma KeywordLineStartsWithSlash(keyword: string, rest: string)
    requires keyword != [] && keyword[0] == '/'
    ensures StartsWith(keyword + rest, "/")
  {
    assert (keyword + rest)[..1] == [keyword[0]];
  }

  /** A trimmed line starting with `/` is dispatched on its split. */
  lemma ParseTrimmedCommand(s: string, keyword: string, arg: Option<string>)
    requires Trim(s) == s && StartsWith(s, "/") && SplitOnce(s, ' ') == (keyword, arg)
    ensures Parse(s) == Dispatch(keyword, arg, s)
  {
    assert Parse(s) == ParseTrimmed(s);
  }

  /** The whitespace around a text never matters. */
  lemma ParseIgnoresSurroundingWhitespace(text: string)
    ensures Parse(Trim(text)) == Parse(text)
  {
    TrimMatchesIdempotent(text, Whitespace);
  }

  /** A keyword command parsed from a text has an argument with something in it:
      the trim leaves no trailing space to split an empty argument off. */
  lemma ParsedArgumentsNonEmpty(text: string)
    ensures Parse(text).Join? ==> ArgWellFormed(Parse(text).room)
    ensures Parse(text).Quit? ==> ArgWellFormed(Parse(text).room)
    ensures Parse(text).Rename? ==> ArgWellFormed(Parse(text).name)
  {
    var msg := Trim(text);
    assert Parse(text) == ParseTrimmed(msg);
    if StartsWith(msg, "/") {
      var (keyword, arg) := SplitOnce(msg, ' ');
      assert ArgWellFormed(arg) by {
        if arg.Some? {
          assert msg == keyword + [' '] + arg.value;
          if arg.value != [] {
            assert arg.value[|arg.value| - 1] == msg[|msg| - 1];
          }
        }
      }
      DispatchPassesArgument(keyword, arg, msg);
    }
  }

  /** The argument a keyword command carries is the one split off the line. */
  lemma DispatchPassesArgument(keyword: string, arg: Option<string>, msg: string)
    ensures Dispatch(keyword, arg, msg).Join? ==> Dispatch(keyword, arg, msg).room == arg
    ensures Dispatch(keyword, arg, msg).Quit? ==> Dispatch(keyword, arg, msg).room == arg
    ensures Dispatch(keyword, arg, msg).Rename? ==> Dispatch(keyword, arg, msg).name == arg
  {
  }

  // ---------------------------------------------------------------------------
  // Interpreting one command

  /** The session's room and name after a command, and the effects it had. */
  datatype Reaction = Reaction(room: string, name: string, effects: seq<Effect>)

  /** The second half of `process_text_msg`, for session `sid` in `room` under `name`. */
  function Interpret(sid: string, room: string, name: string, c: Command): (r: Reaction)
    ensures r.effects != []
    ensures r.name != name ==> c == Rename(Some(r.name))
    ensures r.room != room ==> c == Join(Some(r.room)) || (c.Quit? && r.room == DEFAULT_ROOM)
  {
    match c
    case List => Reaction(room, name, [NotifyUpdateRoomsToSelf(sid)])
    case Join(None) => Reaction(room, name, [Send(Notice("room name is required"))])
    case Join(Some(r)) =>
      Reaction(r, name, [JoinRoom(sid, r), Send(UpdateSession(r, name)), NotifyUpdateRooms(Some(r), sid)])
    case Quit(None) => Reaction(room, name, [Send(Notice("room name is required"))])
    case Quit(Some(r)) =>
      if r == DEFAULT_ROOM then
        Reaction(room, name, [Send(Notice("you can not quit default room: " + r))])
      else
        Reaction(DEFAULT_ROOM, name,
          [QuitRoom(sid, r), Send(UpdateSession(DEFAULT_ROOM, name)),
           NotifyUpdateRooms(Some(r), sid), NotifyUpdateRoomsToSelf(sid)])
    case Rename(None) => Reaction(room, name, [Send(Notice("name is required"))])
    case Rename(Some(n)) =>
      Reaction(room, n, [ChangeName(sid, n), Send(UpdateSession(room, n)), NotifyUpdateRooms(None, sid)])
    case Unknown(line) => Reaction(room, name, [Send(Notice("unknown command: " + line))])
    case Chat(line) => Reaction(room, name, [SendMessage(room, sid, Message(MessageContent(room, sid, name, line)))])
  }

  /** Only `/name n` changes the name, only `/join r` and a successful `/quit`
      change the room, and the membership and name changes a command asks the
      chat server for are the ones it names, for this session. */
  lemma InterpretChangesOnlyWhatItNames(sid: string, room: string, name: string, c: Command)
    ensures var r := Interpret(sid, room, name, c);
      (r.name == name || c == Rename(Some(r.name)))
      && (r.room == room || c == Join(Some(r.room))
          || (r.room == DEFAULT_ROOM && c.Quit? && c.room.Some? && c.room.value != DEFAULT_ROOM))
    ensures forall e :: e in Interpret(sid, room, name, c).effects && Mutates(e) ==>
      e.sessionId == sid && (e.JoinRoom? ==> c == Join(Some(e.room)))
      && (e.QuitRoom? ==> c == Quit(Some(e.room))) && (e.ChangeName? ==> c == Rename(Some(e.name)))
  {
  }

  /** `process_text_msg` as a whole. */
  function ProcessText(sid: string, room: string, name: string, text: string): (r: Reaction)
    ensures r.effects != []
    ensures r.room != room || r.name != name ==> StartsWith(Trim(text), "/")
  {
    Interpret(sid, room, name, Parse(text))
  }

  /** A text that does not start with `/` once trimmed is published, trimmed, to
      the current room under the current name, and changes nothing. */
  lemma ChatIsPublished(sid: string, room: string, name: string, text: string)
    requires !StartsWith(Trim(text), "/")
    ensures ProcessText(sid, room, name, text) ==
      Reaction(room, name, [SendMessage(room, sid, Message(MessageContent(room, sid, name, Trim(text))))])
  {
  }

  /** A keyword command without an argument only tells the client what is missing. */
  lemma MissingArgumentIsRefused(sid: string, room: string, name: string, c: Command)
    requires c == Join(None) || c == Quit(None) || c == Rename(None)
    ensures ProcessText(sid, room, name, Line(c)) ==
      Reaction(room, name, [Send(Notice(if c.Rename? then "name is required" else "room name is required"))])
  {
    ParseLine(c);
  }

  /** `/join r` moves the session to `r`, keeps its name, and notifies room `r`. */
  lemma JoinMovesToRoom(sid: string, room: string, name: string, r: string)
    requires ArgWellFormed(Some(r))
    ensures ProcessText(sid, room, name, "/join " + r) ==
      Reaction(r, name, [JoinRoom(sid, r), Send(UpdateSession(r, name)), NotifyUpdateRooms(Some(r), sid)])
  {
    var text := "/join " + r;
    assert "/join" + " " == "/join ";
    Seqs.AppendAssociative("/join", " ", r);
    assert text == "/join" + ArgText(Some(r));
    ParseJoinLine(Some(r));
    assert ProcessText(sid, room, name, text) == Interpret(sid, room, name, Join(Some(r)));
  }

  /** `/quit` of the default room is refused and changes nothing; quitting any
      other room, current or not, returns the session to the default room. */
  lemma QuitReturnsToDefault(sid: string, room: string, name: string, r: string)
    requires ArgWellFormed(Some(r))
    ensures r == DEFAULT_ROOM ==>
      (ProcessText(sid, room, name, "/quit " + r) ==
       Reaction(room, name, [Send(Notice("you can not quit default room: " + r))]))
    ensures r != DEFAULT_ROOM ==>
      (ProcessText(sid, room, name, "/quit " + r) ==
       Reaction(DEFAULT_ROOM, name, [QuitRoom(sid, r), Send(UpdateSession(DEFAULT_ROOM, name)),
                                     NotifyUpdateRooms(Some(r), sid), NotifyUpdateRoomsToSelf(sid)]))
  {
    var text := "/quit " + r;
    assert "/quit" + " " == "/quit ";
    Seqs.AppendAssociative("/quit", " ", r);
    assert text == "/quit" + ArgText(Some(r));
    ParseQuitLine(Some(r));
    assert ProcessText(sid, room, name, text) == Interpret(sid, room, name, Quit(Some(r)));
  }

  /** `/name n` renames the session, keeps its room, and notifies every room of
      the session (the `None` target). */
  lemma RenameNotifiesAllRooms(sid: string, room: string, name: string, n: string)
    requires ArgWellFormed(Some(n))
    ensures ProcessText(sid, room, name, "/name " + n) ==
      Reaction(room, n, [ChangeName(sid, n), Send(UpdateSession(room, n)), NotifyUpdateRooms(None, sid)])
  {
    var text := "/name " + n;
    assert "/name" + " " == "/name ";
    Seqs.AppendAssociative("/name", " ", n);
    assert text == "/name" + ArgText(Some(n));
    ParseNameLine(Some(n));
    assert ProcessText(sid, room, name, text) == Interpret(sid, room, name, Rename(Some(n)));
  }

  /** An unknown keyword is echoed back, whole, in a notice; `/list`, whatever
      follows it, only asks for the session's own view. Neither changes state. */
  lemma UnknownAndListChangeNothing(sid: string, room: string, name: string, text: string)
    ensures Parse(text).Unknown? ==>
      (ProcessText(sid, room, name, text) == Reaction(room, name, [Send(Notice("unknown command: " + Trim(text)))]))
    ensures Parse(text).List? ==>
      (ProcessText(sid, room, name, text) == Reaction(room, name, [NotifyUpdateRoomsToSelf(sid)]))
  {
    var c := Parse(text);
    assert ProcessText(sid, room, name, text) == Interpret(sid, room, name, c);
  }

  // ---------------------------------------------------------------------------
  // The event loop

  /** The frames the client can send. */
  datatype Frame =
    | Ping(payload: Bytes)
    | Pong(payload: Bytes)
    | TextFrame(text: string)
    | Binary(payload: Bytes)
    | Close(reason: Option<CloseReason>)
    | Continuation
    | Nop

  /** The sources the loop selects over: the client stream (a frame, an error, or
      its end), the chat server's relayed strings, and the heartbeat timer. */
  datatype Event = Received(frame: Frame) | StreamError | StreamEnd | Relayed(chat: string) | Tick

  /** An event with the clock reading, in milliseconds, at which it is handled. */
  datatype Timed = Timed(event: Event, now: int)

  /** The loop's mutable locals. */
  datatype State = State(room: string, name: string, lastHeartbeat: int)

  datatype Exit = Running | Stopped(reason: Option<CloseReason>)

  datatype Outcome = Outcome(state: State, effects: seq<Effect>, exit: Exit)

  predicate IsHeartbeat(ev: Event)
  {
    ev.Received? && (ev.frame.Ping? || ev.frame.Pong?)
  }

  /** One iteration of the `chat_ws` loop. */
  function Step(sid: string, s: State, ev: Event, now: int): (o: Outcome)
    ensures o.state.lastHeartbeat == (if IsHeartbeat(ev) then now else s.lastHeartbeat)
    ensures !(ev.Received? && ev.frame.TextFrame?) ==> o.state.room == s.room && o.state.name == s.name
    ensures ev.Tick? ==> (o.exit.Stopped? <==> now - s.lastHeartbeat > CLIENT_TIMEOUT)
    ensures ev.Tick? && o.exit.Running? ==> o.effects == [PingFrame(PING_PAYLOAD)]
    ensures ev.Received? && ev.frame.Ping? ==> o.effects == [PongFrame(ev.frame.payload)]
    ensures ev.Received? && (ev.frame.Pong? || ev.frame.Binary?) ==> o.effects == []
    ensures ev.Received? && ev.frame.TextFrame? ==>
      var r := ProcessText(sid, s.room, s.name, ev.frame.text);
      o.state.room == r.room && o.state.name == r.name && o.effects == r.effects
    ensures ev.Relayed? ==> o.effects == [Send(Relay(ev.chat))]
    ensures ev.Received? && ev.frame.Close? ==> o.exit == Stopped(ev.frame.reason)
    ensures o.exit.Stopped? ==> o.effects == [] && (o.exit.reason.Some? ==> ev.Received? && ev.frame.Close?)
    ensures o.exit.Running? <==>
      (ev.Received? && !ev.frame.Close? && !ev.frame.Continuation? && !ev.frame.Nop?)
      || ev.Relayed? || (ev.Tick? && now - s.lastHeartbeat <= CLIENT_TIMEOUT)
  {
    match ev
    case Received(Ping(bytes)) => Outcome(s.(lastHeartbeat := now), [PongFrame(bytes)], Running)
    case Received(Pong(_)) => Outcome(s.(lastHeartbeat := now), [], Running)
    case Received(TextFrame(text)) =>
      var r := ProcessText(sid, s.room, s.name, text);
      Outcome(s.(room := r.room, name := r.name), r.effects, Running)
    case Received(Binary(_)) => Outcome(s, [], Running)
    case Received(Close(reason)) => Outcome(s, [], Stopped(reason))
    case Received(Continuation) => Outcome(s, [], Stopped(None))
    case Received(Nop) => Outcome(s, [], Stopped(None))
    case StreamError => Outcome(s, [], Stopped(None))
    case StreamEnd => Outcome(s, [], Stopped(None))
    case Relayed(chat) => Outcome(s, [Send(Relay(chat))], Running)
    case Tick =>
      if now - s.lastHeartbeat > CLIENT_TIMEOUT then Outcome(s, [], Stopped(None))
      else Outcome(s, [PingFrame(PING_PAYLOAD)], Running)
  }

  /** The loop over a finite run of events: it stops at the first event that ends
      it, or keeps running when the events are exhausted. */
  datatype RunResult = RunResult(state: State, effects: seq<Effect>, exit: Exit, consumed: nat)

  function Run(sid: string, s: State, inputs: seq<Timed>): (r: RunResult)
    ensures r.consumed <= |inputs|
    ensures r.exit.Running? ==> r.consumed == |inputs|
    decreases |inputs|, 1
  {
    if inputs == [] then RunResult(s, [], Running, 0) else RunFrom(sid, s, inputs)
  }

  /** The loop over a non-empty run: its first event, then the rest unless that
      event ended it. */
  function RunFrom(sid: string, s: State, inputs: seq<Timed>): (r: RunResult)
    requires inputs != []
    ensures 1 <= r.consumed <= |inputs|
    ensures r.exit.Running? ==> r.consumed == |inputs|
    decreases |inputs|, 0
  {
    var o := Step(sid, s, inputs[0].event, inputs[0].now);
    if o.exit.Stopped? then RunResult(o.state, o.effects, o.exit, 1)
    else
      var rest := Run(sid, o.state, inputs[1..]);
      RunResult(rest.state, o.effects + rest.effects, rest.exit, 1 + rest.consumed)
  }

  /** A client that sends no ping and no pong is disconnected, with no close
      reason, by the first tick that finds it silent for longer than the timeout. */
  lemma {:induction false} SilentClientIsDisconnected(sid: string, s: State, inputs: seq<Timed>, k: nat)
    requires k < |inputs| && inputs[k].event.Tick? && inputs[k].now - s.lastHeartbeat > CLIENT_TIMEOUT
    requires forall j :: 0 <= j < k ==> !IsHeartbeat(inputs[j].event)
    ensures Run(sid, s, inputs).exit.Stopped? && Run(sid, s, inputs).consumed <= k + 1
    decreases k
  {
    var o := Step(sid, s, inputs[0].event, inputs[0].now);
    if o.exit.Running? {
      assert k != 0;
      assert o.state.lastHeartbeat == s.lastHeartbeat;
      var rest := inputs[1..];
      assert rest[k - 1] == inputs[k];
      forall j | 0 <= j < k - 1
        ensures !IsHeartbeat(rest[j].event)
      {
        assert rest[j] == inputs[j + 1];
      }
      SilentClientIsDisconnected(sid, o.state, rest, k - 1);
    }
  }

  /** Only a close frame gives the loop a reason to close with; every other way
      out closes without one. */
  lemma {:induction false} StopReasonComesFromClose(sid: string, s: State, inputs: seq<Timed>)
    ensures Run(sid, s, inputs).exit.Stopped? && Run(sid, s, inputs).exit.reason.Some? ==>
      var last := inputs[Run(sid, s, inputs).consumed - 1].event;
      last.Received? && last.frame.Close? && last.frame.reason == Run(sid, s, inputs).exit.reason
    decreases |inputs|
  {
    if inputs != [] {
      var o := Step(sid, s, inputs[0].event, inputs[0].now);
      if o.exit.Running? {
        StopReasonComesFromClose(sid, o.state, inputs[1..]);
        var r := Run(sid, o.state, inputs[1..]);
        if r.exit.Stopped? && r.exit.reason.Some? {
          assert inputs[1..][r.consumed - 1] == inputs[r.consumed];
        }
      }
    }
  }

  // ---------------------------------------------------------------------------
  // Notifications

  /** The rooms `notify_update_rooms` addresses: the given room, or with none given
      every room of the session in the snapshot's inverse index. */
  function TargetRooms(hub: Hub.ChatServerForHub, target: Option<string>, sid: string): (rs: set<string>)
    ensures target.Some? ==> rs == {target.value}
    ensures target.None? ==> forall r :: r in rs <==> sid in hub.sessionRoomMap && r in hub.sessionRoomMap[sid]
  {
    match target
    case Some(r) => {r}
    case None => Hub.RoomsOf(hub, sid)
  }

  /** `notify_update_rooms` builds each member's view with `get_by_session`: this
      is what it needs of the snapshot not to panic. */
  predicate NotifiableSnapshot(hub: Hub.ChatServerForHub, target: Option<string>, sid: string)
  {
    forall r, m :: r in TargetRooms(hub, target, sid) && r in hub.rooms && m in hub.rooms[r] ==>
      Hub.MembersKnown(hub, m)
  }

  /** The update sent to member `m` of room `r`: its own view of the snapshot. */
  function RoomsUpdate(hub: Hub.ChatServerForHub, r: string, m: string): Effect
    requires Hub.MembersKnown(hub, m)
  {
    SendSystemMessage(r, m, UpdateRoomsView(Hub.GetBySession(hub, m)))
  }

  /** Every message `notify_update_rooms` sends: one per member of each targeted
      room that exists in the snapshot. */
  function NotifySends(hub: Hub.ChatServerForHub, target: Option<string>, sid: string): (out: set<Effect>)
    requires NotifiableSnapshot(hub, target, sid)
    ensures forall e :: e in out ==>
      (e.SendSystemMessage? && e.room in TargetRooms(hub, target, sid)
       && e.room in hub.rooms && e.toId in hub.rooms[e.room])
    ensures target.Some? ==> forall e :: e in out ==> e.room == target.value
  {
    set r, m | r in TargetRooms(hub, target, sid) && r in hub.rooms && m in hub.rooms[r] :: RoomsUpdate(hub, r, m)
  }

  /** On a consistent snapshot every member that is notified about a room finds
      that room, and itself in it, in the view it is sent. */
  lemma NotifiedMembersSeeTheRoom(hub: Hub.ChatServerForHub, target: Option<string>, sid: string)
    requires Hub.Consistent(hub) && Hub.NamesKnown(hub)
    ensures NotifiableSnapshot(hub, target, sid)
    ensures forall e :: e in NotifySends(hub, target, sid) ==>
      e.room in e.text.view && e.toId in e.text.view[e.room]
  {
    forall m ensures Hub.MembersKnown(hub, m) {
      Hub.GetBySessionSeesSelf(hub, m);
    }
    forall e | e in NotifySends(hub, target, sid)
      ensures e.room in e.text.view && e.toId in e.text.view[e.room]
    {
      Hub.GetBySessionSeesSelf(hub, e.toId);
    }
  }

  /** A rename reaches every member of every room the session is in, and no one else. */
  lemma RenameReachesCoMembers(hub: Hub.ChatServerForHub, sid: string, m: string)
    requires Hub.Consistent(hub) && Hub.NamesKnown(hub)
    ensures NotifiableSnapshot(hub, None, sid)
    ensures (exists e :: e in NotifySends(hub, None, sid) && e.toId == m) <==>
      (exists r :: r in hub.rooms && sid in hub.rooms[r] && m in hub.rooms[r])
  {
    NotifiedMembersSeeTheRoom(hub, None, sid);
    if r :| r in hub.rooms && sid in hub.rooms[r] && m in hub.rooms[r] {
      assert r in Hub.RoomsOf(hub, sid);
      assert RoomsUpdate(hub, r, m) in NotifySends(hub, None, sid);
    }
    if e :| e in NotifySends(hub, None, sid) && e.toId == m {
      assert e.room in hub.sessionRoomMap[sid];
    }
  }

  /** The first half of `notify_update_rooms`: the target room, or every room
      the snapshot lists for the session, each once. */
  method CollectTargets(hub: Hub.ChatServerForHub, target: Option<string>, sid: string) returns (targets: seq<string>)
    ensures Seqs.NoDuplicates(targets)
    ensures forall r :: r in targets <==> r in TargetRooms(hub, target, sid)
  {
    targets := [];
    match target {
      case Some(r) =>
        targets := [r];
      case None =>
        var left := Hub.RoomsOf(hub, sid);
        while left != {}
          invariant left <= Hub.RoomsOf(hub, sid)
          invariant Seqs.NoDuplicates(targets)
          invariant forall r :: r in targets <==> r in Hub.RoomsOf(hub, sid) && r !in left
          decreases left
        {
          var r :| r in left;
          targets := targets + [r];
          left := left - {r};
        }
    }
  }

  /** `notify_update_rooms` over the snapshot `hub` that `get_rooms` returned: the
      target rooms are collected first, then each existing room's members are
      sent their view. The hash-map order of both loops is left open. */
  method NotifyRooms(hub: Hub.ChatServerForHub, target: Option<string>, sid: string) returns (sends: seq<Effect>)
    requires NotifiableSnapshot(hub, target, sid)
    ensures Seqs.NoDuplicates(sends)
    ensures forall e :: e in sends <==> e in NotifySends(hub, target, sid)
  {
    var targets := CollectTargets(hub, target, sid);
    sends := [];
    var i := 0;
    while i < |targets|
      invariant 0 <= i <= |targets|
      invariant Seqs.NoDuplicates(sends)
      invariant forall e :: e in sends ==> e in NotifySends(hub, target, sid) && e.room in targets[..i]
      invariant forall r, m :: r in targets[..i] && r in hub.rooms && m in hub.rooms[r] ==> RoomsUpdate(hub, r, m) in sends
    {
      var r := targets[i];
      if r in hub.rooms {
        var out := NotifyMembers(hub, target, sid, r);
        assert r !in targets[..i] by {
          forall j | 0 <= j < i
            ensures targets[..i][j] != r
          {
            assert targets[..i][j] == targets[j];
          }
        }
        Seqs.AppendDisjoint(sends, out);
        sends := sends + out;
      }
      assert targets[..i + 1] == targets[..i] + [r];
      i := i + 1;
    }
    assert targets[..i] == targets;
  }

  /** The inner loop of `notify_update_rooms`: every member of room `r` in the
      snapshot is sent its own view, once. */
  method NotifyMembers(hub: Hub.ChatServerForHub, target: Option<string>, sid: string, r: string) returns (out: seq<Effect>)
    requires NotifiableSnapshot(hub, target, sid)
    requires r in TargetRooms(hub, target, sid) && r in hub.rooms
    ensures Seqs.NoDuplicates(out)
    ensures forall e :: e in out ==> e in NotifySends(hub, target, sid) && e.room == r
    ensures forall m :: m in hub.rooms[r] ==> RoomsUpdate(hub, r, m) in out
  {
    out := [];
    var members := hub.rooms[r].Keys;
    while members != {}
      invariant members <= hub.rooms[r].Keys
      invariant Seqs.NoDuplicates(out)
      invariant forall e :: e in out ==> e in NotifySends(hub, target, sid) && e.room == r && e.toId !in members
      invariant forall m :: m in hub.rooms[r] && m !in members ==> RoomsUpdate(hub, r, m) in out
      decreases members
    {
      var m :| m in members;
      out := out + [RoomsUpdate(hub, r, m)];
      members := members - {m};
    }
  }

  // ---------------------------------------------------------------------------
  // One connection

  /** What `chat_ws` does before its loop: register, tell the client its room and
      name, and notify the default room. */
  function Greeting(sid: string, sessionName: string): (g: seq<Effect>)
    ensures g != [] && g[0] == Connect(sid, sessionName)
    ensures Send(UpdateSession(DEFAULT_ROOM, sessionName)) in g
    ensures g[|g| - 1] == NotifyUpdateRooms(Some(DEFAULT_ROOM), sid)
    ensures forall e :: e in g ==> !Mutates(e) && (e.NotifyUpdateRooms? ==> e.target == Some(DEFAULT_ROOM))
  {
    [Connect(sid, sessionName), Send(UpdateSession(DEFAULT_ROOM, sessionName)), NotifyUpdateRooms(Some(DEFAULT_ROOM), sid)]
  }

  /** What `chat_ws` does after its loop: deregister, notify each room the chat
      server says the session was in, then close the stream. */
  function Farewell(sid: string, departed: seq<string>, reason: Option<CloseReason>): (f: seq<Effect>)
    ensures |f| == |departed| + 2 && f[0] == Disconnect(sid) && f[|f| - 1] == CloseFrame(reason)
    ensures forall k :: 0 <= k < |departed| ==> f[k + 1] == NotifyUpdateRooms(Some(departed[k]), sid)
  {
    [Disconnect(sid)] + Departures(sid, departed) + [CloseFrame(reason)]
  }

  /** One `update_rooms` notification per departed room, in order. */
  function Departures(sid: string, departed: seq<string>): (f: seq<Effect>)
    ensures |f| == |departed|
    ensures forall k :: 0 <= k < |departed| ==> f[k] == NotifyUpdateRooms(Some(departed[k]), sid)
  {
    if departed == [] then []
    else Departures(sid, departed[..|departed| - 1]) + [NotifyUpdateRooms(Some(departed[|departed| - 1]), sid)]
  }

  /** The state of one `chat_ws` task. */
  class Connection {
    const sessionId: string
    var room: string
    var name: string
    var lastHeartbeat: int
    /** Every effect so far, oldest first. */
    var log: seq<Effect>

    function Current(): State
      reads this`room, this`name, this`lastHeartbeat
    {
      State(room, name, lastHeartbeat)
    }

    /** `chat_ws` up to its loop, with `now` the clock at start. */
    constructor (sid: string, sessionName: string, now: int)
      ensures sessionId == sid && Current() == State(DEFAULT_ROOM, sessionName, now)
      ensures log == Greeting(sid, sessionName)
    {
      sessionId := sid;
      room := DEFAULT_ROOM;
      name := sessionName;
      lastHeartbeat := now;
      log := Greeting(sid, sessionName);
    }

    /** `process_text_msg`, writing through to `room` and `name`. */
    method ProcessTextMsg(text: string)
      modifies this
      ensures var r := ProcessText(sessionId, old(room), old(name), text);
        room == r.room && name == r.name && log == old(log) + r.effects
      ensures lastHeartbeat == old(lastHeartbeat)
    {
      Execute(Parse(text));
    }

    /** The command half of `process_text_msg`: the writes through `room` and
        `name` and the calls it makes, in order. */
    method Execute(c: Command)
      modifies this
      ensures var r := Interpret(sessionId, old(room), old(name), c);
        room == r.room && name == r.name && log == old(log) + r.effects
      ensures lastHeartbeat == old(lastHeartbeat)
    {
      match c {
        case List =>
          log := log + [NotifyUpdateRoomsToSelf(sessionId)];
        case Join(Some(r)) =>
          room := r;
          log := log + [JoinRoom(sessionId, r), Send(UpdateSession(room, name)), NotifyUpdateRooms(Some(r), sessionId)];
        case Join(None) =>
          log := log + [Send(Notice("room name is required"))];
        case Quit(Some(r)) =>
          if r == DEFAULT_ROOM {
            log := log + [Send(Notice("you can not quit default room: " + r))];
          } else {
            room := DEFAULT_ROOM;
            log := log + [QuitRoom(sessionId, r), Send(UpdateSession(room, name)),
                          NotifyUpdateRooms(Some(r), sessionId), NotifyUpdateRoomsToSelf(sessionId)];
          }
        case Quit(None) =>
          log := log + [Send(Notice("room name is required"))];
        case Rename(Some(n)) =>
          name := n;
          log := log + [ChangeName(sessionId, n), Send(UpdateSession(room, name)),
                        NotifyUpdateRooms(None, sessionId)];
        case Rename(None) =>
          log := log + [Send(Notice("name is required"))];
        case Unknown(line) =>
          log := log + [Send(Notice("unknown command: " + line))];
        case Chat(line) =>
          log := log + [SendMessage(room, sessionId, Message(MessageContent(room, sessionId, name, line)))];
      }
    }

    /** One iteration of the loop, at clock reading `now`. */
    method HandleEvent(ev: Event, now: int) returns (exit: Exit)
      modifies this
      ensures var o := Step(sessionId, old(Current()), ev, now);
        Current() == o.state && log == old(log) + o.effects && exit == o.exit
    {
      exit := Running;
      match ev {
        case Received(frame) =>
          match frame {
            case Ping(bytes) =>
              lastHeartbeat := now;
              log := log + [PongFrame(bytes)];
            case Pong(_) =>
              lastHeartbeat := now;
            case TextFrame(text) =>
              ProcessTextMsg(text);
            case Binary(_) =>
            case Close(reason) =>
              exit := Stopped(reason);
            case Continuation =>
              exit := Stopped(None);
            case Nop =>
              exit := Stopped(None);
          }
        case StreamError =>
          exit := Stopped(None);
        case StreamEnd =>
          exit := Stopped(None);
        case Relayed(chat) =>
          log := log + [Send(Relay(chat))];
        case Tick =>
          if now - lastHeartbeat > CLIENT_TIMEOUT {
            exit := Stopped(None);
          } else {
            log := log + [PingFrame(PING_PAYLOAD)];
          }
      }
    }

    /** The loop's iteration on input `k`, stated as how far it takes the run
        over `inputs[k..]`. */
    method Advance(inputs: seq<Timed>, k: nat) returns (exit: Exit, ghost effects: seq<Effect>)
      requires k < |inputs|
      modifies this
      ensures log == old(log) + effects
      ensures exit.Running? ==>
        Run(sessionId, old(Current()), inputs[k..]) == After(effects, 1, Run(sessionId, Current(), inputs[k + 1..]))
      ensures exit.Stopped? ==>
        Run(sessionId, old(Current()), inputs[k..]) == RunResult(Current(), effects, exit, 1)
    {
      ghost var s := Current();
      exit := HandleEvent(inputs[k].event, inputs[k].now);
      effects := Step(sessionId, s, inputs[k].event, inputs[k].now).effects;
      RunAt(sessionId, s, inputs, k);
    }

    /** The loop, fed with `inputs` in order until one of them ends it. */
    method Loop(inputs: seq<Timed>) returns (exit: Exit, consumed: nat)
      modifies this
      ensures var r := Run(sessionId, old(Current()), inputs);
        Current() == r.state && log == old(log) + r.effects && exit == r.exit && consumed == r.consumed
    {
      exit, consumed := Running, 0;
      ghost var done: seq<Effect> := [];
      while consumed < |inputs| && exit.Running?
        invariant consumed <= |inputs| && log == old(log) + done
        invariant exit.Running? ==>
          Run(sessionId, old(Current()), inputs) == After(done, consumed, Run(sessionId, Current(), inputs[consumed..]))
        invariant exit.Stopped? ==>
          Run(sessionId, old(Current()), inputs) == RunResult(Current(), done, exit, consumed)
        decreases |inputs| - consumed
      {
        ghost var s, effects := Current(), [];
        exit, effects := Advance(inputs, consumed);
        RunGrows(sessionId, old(Current()), inputs, consumed, done, s, effects, Current(), exit);
        Seqs.AppendAssociative(old(log), done, effects);
        done := done + effects;
        consumed := consumed + 1;
      }
    }

    /** The teardown after the loop: `departed` is what `disconnect` returned. */
    method Teardown(departed: seq<string>, reason: Option<CloseReason>)
      modifies this
      ensures log == old(log) + Farewell(sessionId, departed, reason)
      ensures Current() == old(Current())
    {
      log := log + [Disconnect(sessionId)];
      var i := 0;
      while i < |departed|
        invariant 0 <= i <= |departed|
        invariant log == old(log) + [Disconnect(sessionId)] + Departures(sessionId, departed[..i])
        invariant Current() == old(Current())
      {
        assert departed[..i + 1][..i] == departed[..i];
        Seqs.AppendAssociative(old(log) + [Disconnect(sessionId)], Departures(sessionId, departed[..i]),
          [NotifyUpdateRooms(Some(departed[i]), sessionId)]);
        log := log + [NotifyUpdateRooms(Some(departed[i]), sessionId)];
        i := i + 1;
      }
      assert departed[..i] == departed;
      log := log + [CloseFrame(reason)];
      assert log == old(log) + ([Disconnect(sessionId)] + Departures(sessionId, departed) + [CloseFrame(reason)]);
    }
  }

  /** `r` preceded by `n` consumed events that had effects `prefix`. */
  function After(prefix: seq<Effect>, n: nat, r: RunResult): RunResult
  {
    RunResult(r.state, prefix + r.effects, r.exit, n + r.consumed)
  }

  lemma AfterAfter(p: seq<Effect>, n: nat, q: seq<Effect>, m: nat, r: RunResult)
    ensures After(p, n, After(q, m, r)) == After(p + q, n + m, r)
  {
    assert p + (q + r.effects) == (p + q) + r.effects;
  }

  /** The loop invariant survives an iteration from state `s` to `t` on input `k`. */
  lemma RunGrows(sid: string, s0: State, inputs: seq<Timed>, k: nat, done: seq<Effect>,
                 s: State, effects: seq<Effect>, t: State, exit: Exit)
    requires k < |inputs|
    requires Run(sid, s0, inputs) == After(done, k, Run(sid, s, inputs[k..]))
    requires exit.Running? ==> Run(sid, s, inputs[k..]) == After(effects, 1, Run(sid, t, inputs[k + 1..]))
    requires exit.Stopped? ==> Run(sid, s, inputs[k..]) == RunResult(t, effects, exit, 1)
    ensures exit.Running? ==> Run(sid, s0, inputs) == After(done + effects, k + 1, Run(sid, t, inputs[k + 1..]))
    ensures exit.Stopped? ==> Run(sid, s0, inputs) == RunResult(t, done + effects, exit, k + 1)
  {
    if exit.Running? {
      AfterAfter(done, k, effects, 1, Run(sid, t, inputs[k + 1..]));
    }
  }

  /** `Run` takes one `Step` at a time. */
  lemma RunAt(sid: string, s: State, inputs: seq<Timed>, k: nat)
    requires k < |inputs|
    ensures var o := Step(sid, s, inputs[k].event, inputs[k].now);
      Run(sid, s, inputs[k..]) ==
        if o.exit.Stopped? then RunResult(o.state, o.effects, o.exit, 1)
        else After(o.effects, 1, Run(sid, o.state, inputs[k + 1..]))
  {
    assert inputs[k..][0] == inputs[k] && inputs[k..][1..] == inputs[k + 1..];
  }

  /** A whole `chat_ws` session: the greeting, the loop over `inputs`, and, when an
      input ended the loop, the teardown with the rooms `departed` that
      `disconnect` reports. */
  function Session(sid: string, sessionName: string, start: int, inputs: seq<Timed>, departed: seq<string>): (log: seq<Effect>)
    ensures |log| >= 3 && log[..3] == Greeting(sid, sessionName)
    ensures Run(sid, State(DEFAULT_ROOM, sessionName, start), inputs).exit.Stopped? ==>
      log[|log| - 1] == CloseFrame(Run(sid, State(DEFAULT_ROOM, sessionName, start), inputs).exit.reason)
  {
    var r := Run(sid, State(DEFAULT_ROOM, sessionName, start), inputs);
    Greeting(sid, sessionName) + r.effects +
      (if r.exit.Stopped? then Farewell(sid, departed, r.exit.reason) else [])
  }

  method ChatWs(sid: string, sessionName: string, start: int, inputs: seq<Timed>, departed: seq<string>)
    returns (log: seq<Effect>, exit: Exit)
    ensures log == Session(sid, sessionName, start, inputs, departed)
    ensures exit == Run(sid, State(DEFAULT_ROOM, sessionName, start), inputs).exit
  {
    var c := new Connection(sid, sessionName, start);
    var consumed;
    exit, consumed := c.Loop(inputs);
    if exit.Stopped? {
      c.Teardown(departed, exit.reason);
    }
    log := c.log;
  }
}
