/** The bookkeeping of one chat page as a value: tokens, socket, partner-presence
    flags, the message list, the draft and the typing indicator, and how every inbound
    socket event, user action, token reply and passage of time changes it. The chat
    component's methods are proved to follow `Step`; the lemmas here are what the
    component therefore guarantees over whole runs. */
module Session {
  import opened JsString
  import opened TimeFormat

  /** Localisation keys of the system entries. */
  const ConnectedKey := "CHAT.CONNECTED"
  const WaitingKey := "CHAT.WAITING"
  const PartnerLeftKey := "CHAT.PARTNER_LEFT"

  /** How long an inbound typing pulse keeps the indicator on, in milliseconds. */
  const TypingWindow := 1000

  /** The page's own message type: a system banner named by its localisation key, or
      a user message with its sender's display name, its text and its formatted time. */
  datatype ChatEntry =
    | System(key: string)
    | User(senderName: string, text: string, time: string)

  /** Events the client emits on the socket. */
  datatype OutEvent =
    | Join(token: string)
    | Leave
    | SendText(text: string)
    | Typing(name: string)

  /** What the client does to its socket, in order: open a new one, emit on the
      current one, disconnect the current one. */
  datatype SocketOp = Open | Emit(event: OutEvent) | Close

  /** Events the server delivers to the handlers `initSocket` installs. */
  datatype ServerEvent =
    | Connected
    | Waiting
    | PartnerLeft
    | NewMessage(sender: string, text: string, time: LocalTime)
    | TypingFrom(senderName: string)
    | UserCount(count: int)

  /** Everything that can happen to the page. */
  datatype Event =
    | Receive(server: ServerEvent)
    | InitialToken(token: string)   // the token request made on page load succeeded
    | RequeueToken(token: string)   // the token request made by "next chat" succeeded
    | TokenFailed                   // either token request failed
    | EditDraft(text: string)       // the input box bound to the draft changed
    | SendMessage
    | Typed                         // a keystroke in the input box
    | ToggleEmojiPicker
    | EmojiSelected(unicode: string)
    | NextChat
    | ExitChat
    | Elapse(ms: nat)               // time passes; a due typing timer fires

  datatype ChatState = ChatState(
    myName: string,
    hasSocket: bool,
    token: string,
    messages: seq<ChatEntry>,
    draft: string,
    connected: bool,
    waiting: bool,
    isTyping: bool,
    waitingMessageShown: bool,
    showEmoji: bool,
    connectedUsers: int,
    clock: int,
    typingDeadline: int,           // when the pending typing timer fires
    socketLog: seq<SocketOp>,      // everything done to sockets so far
    navigations: seq<string>)      // routes navigated to so far

  /** The component as constructed, before any token arrives. */
  function Initial(myName: string): ChatState {
    ChatState(myName, false, "", [], "", false, false, false, false, false, 0, 0, 0, [], [])
  }

  /** `addSystemMessage(key)`. */
  function AddSystemMessage(s: ChatState, key: string): ChatState {
    s.(messages := s.messages + [System(key)])
  }

  /** `initSocket(token)`: leave and drop the current socket if there is one, open a
      new one and join with the token. */
  function InitSocket(s: ChatState, token: string): ChatState {
    var retire := if s.hasSocket then [Emit(Leave), Close] else [];
    s.(hasSocket := true, socketLog := s.socketLog + retire + [Open, Emit(Join(token))])
  }

  /** The handlers `initSocket` installs. */
  function Handle(s: ChatState, e: ServerEvent): ChatState {
    match e
    case Connected =>
      AddSystemMessage(s.(connected := true, waiting := false), ConnectedKey)
    case Waiting =>
      var t := s.(connected := false, waiting := true);
      if s.waitingMessageShown then t
      else AddSystemMessage(t, WaitingKey).(waitingMessageShown := true)
    case PartnerLeft =>
      AddSystemMessage(s.(connected := false), PartnerLeftKey)
    case NewMessage(sender, text, time) =>
      s.(messages := s.messages + [User(sender, text, FormatTime(time))])
    case TypingFrom(name) =>
      if name == s.myName then s
      else s.(isTyping := true, typingDeadline := s.clock + TypingWindow)
    case UserCount(n) =>
      s.(connectedUsers := n)
  }

  function Step(s: ChatState, e: Event): ChatState {
    match e
    case Receive(se) =>
      // no handler is installed before the first socket exists
      if s.hasSocket then Handle(s, se) else s
    case InitialToken(t) =>
      InitSocket(s.(token := t, hasSocket := true, socketLog := s.socketLog + [Open]), t)
    case RequeueToken(t) =>
      InitSocket(s.(token := t), t)
    case TokenFailed =>
      s.(navigations := s.navigations + ["/"])
    case EditDraft(text) =>
      s.(draft := text)
    case SendMessage =>
      if !s.connected || Trim(s.draft) == "" then s
      else s.(socketLog := s.socketLog + [Emit(SendText(Trim(s.draft)))], draft := "")
    case Typed =>
      if s.connected then s.(socketLog := s.socketLog + [Emit(Typing(s.myName))]) else s
    case ToggleEmojiPicker =>
      s.(showEmoji := !s.showEmoji)
    case EmojiSelected(u) =>
      s.(draft := s.draft + u, showEmoji := false)
    case NextChat =>
      if !s.hasSocket then s
      else s.(socketLog := s.socketLog + [Emit(Leave), Close], messages := [],
              connected := false, waiting := true, waitingMessageShown := false)
    case ExitChat =>
      s.(socketLog := s.socketLog + (if s.hasSocket then [Close] else []),
         navigations := s.navigations + ["/"])
    case Elapse(ms) =>
      s.(clock := s.clock + ms, isTyping := s.isTyping && s.clock + ms < s.typingDeadline)
  }

  function Run(s: ChatState, evs: seq<Event>): ChatState
    decreases |evs|
  {
    if evs == [] then s else Run(Step(s, evs[0]), evs[1..])
  }

  /** Number of system entries with the given key. */
  function CountSystem(msgs: seq<ChatEntry>, key: string): nat {
    if msgs == [] then 0
    else CountSystem(msgs[..|msgs| - 1], key) + (if msgs[|msgs| - 1] == System(key) then 1 else 0)
  }

  lemma {:induction false} CountSystemAppend(a: seq<ChatEntry>, b: seq<ChatEntry>, key: string)
    ensures CountSystem(a + b, key) == CountSystem(a, key) + CountSystem(b, key)
    decreases |b|
  {
    if b == [] {
      assert a + b == a;
    } else {
      assert (a + b)[..|a + b| - 1] == a + b[..|b| - 1];
      assert (a + b)[|a + b| - 1] == b[|b| - 1];
      CountSystemAppend(a, b[..|b| - 1], key);
    }
  }

  /** `addSystemMessage` keeps the earlier entries as they were and puts one entry after
      them, so it adds one to the count of its own key and leaves the count of every
      other key alone. This is what ties the waiting banner to `waitingMessageShown`. */
  lemma AddSystemMessageCounts(s: ChatState, key: string, k: string)
    ensures var r := AddSystemMessage(s, key);
            && |r.messages| == |s.messages| + 1
            && r.messages[..|s.messages|] == s.messages
            && r.messages[|s.messages|] == System(key)
            && CountSystem(r.messages, k) == CountSystem(s.messages, k) + (if key == k then 1 else 0)
  {
    CountSystemAppend(s.messages, [System(key)], k);
    assert AddSystemMessage(s, key).messages[..|s.messages|] == s.messages;
  }

  /** A text the client put on the wire with `sendMessage`: never blank, already trimmed. */
  predicate WellFormedSend(op: SocketOp) {
    op.Emit? && op.event.SendText? ==> op.event.text != "" && Trim(op.event.text) == op.event.text
  }

  /** What every reachable state satisfies:
      - the list holds exactly one waiting banner if the flag says one was shown, none otherwise;
      - the page is never connected and waiting at once, nor connected without a socket;
      - the typing indicator is on exactly while its timer is pending, and a pending
        timer is at most one window away;
      - every text sent was non-blank and trimmed. */
  ghost predicate Inv(s: ChatState) {
    && CountSystem(s.messages, WaitingKey) == (if s.waitingMessageShown then 1 else 0)
    && !(s.connected && s.waiting)
    && (s.connected ==> s.hasSocket)
    && (s.isTyping <==> s.clock < s.typingDeadline)
    && s.typingDeadline <= s.clock + TypingWindow
    && (forall i :: 0 <= i < |s.socketLog| ==> WellFormedSend(s.socketLog[i]))
  }

  lemma InitialSatisfiesInv(myName: string)
    ensures Inv(Initial(myName))
  {
  }

  lemma AppendKeepsSends(log: seq<SocketOp>, extra: seq<SocketOp>)
    requires forall i :: 0 <= i < |log| ==> WellFormedSend(log[i])
    requires forall i :: 0 <= i < |extra| ==> WellFormedSend(extra[i])
    ensures forall i :: 0 <= i < |log + extra| ==> WellFormedSend((log + extra)[i])
  {
    forall i | 0 <= i < |log + extra| ensures WellFormedSend((log + extra)[i]) {
      if i >= |log| { assert (log + extra)[i] == extra[i - |log|]; }
    }
  }

  /** The presence handlers keep the banner count in step with `waitingMessageShown`. */
  lemma PresencePreservesInv(s: ChatState, e: ServerEvent)
    requires Inv(s) && s.hasSocket && (e.Connected? || e.Waiting? || e.PartnerLeft?)
    ensures Inv(Handle(s, e))
  {
    var key := if e.Connected? then ConnectedKey else if e.Waiting? then WaitingKey else PartnerLeftKey;
    AddSystemMessageCounts(s, key, WaitingKey);
  }

  lemma HandlePreservesInv(s: ChatState, e: ServerEvent)
    requires Inv(s) && s.hasSocket
    ensures Inv(Handle(s, e))
  {
    if e.Connected? || e.Waiting? || e.PartnerLeft? {
      PresencePreservesInv(s, e);
    } else if e.NewMessage? {
      CountSystemAppend(s.messages, [User(e.sender, e.text, FormatTime(e.time))], WaitingKey);
    }
  }

  /** `initSocket` logs only socket operations without text: the invariant survives it. */
  lemma InitSocketPreservesInv(s: ChatState, token: string)
    requires Inv(s)
    ensures Inv(InitSocket(s, token))
  {
    var retire := if s.hasSocket then [Emit(Leave), Close] else [];
    AppendKeepsSends(s.socketLog, retire);
    AppendKeepsSends(s.socketLog + retire, [Open, Emit(Join(token))]);
  }

  /** A token reply: the socket log grows by well-formed operations only. */
  lemma TokenStepPreservesInv(s: ChatState, e: Event)
    requires Inv(s) && (e.InitialToken? || e.RequeueToken?)
    ensures Inv(Step(s, e))
  {
    var t := e.token;
    var log := if e.InitialToken? then s.socketLog + [Open] else s.socketLog;
    var retire := if e.InitialToken? || s.hasSocket then [Emit(Leave), Close] else [];
    AppendKeepsSends(s.socketLog, if e.InitialToken? then [Open] else []);
    AppendKeepsSends(log, retire);
    AppendKeepsSends(log + retire, [Open, Emit(Join(t))]);
    assert Step(s, e).socketLog == log + retire + [Open, Emit(Join(t))];
  }

  /** `sendMessage` emits only a trimmed, nonempty text. */
  lemma SendStepPreservesInv(s: ChatState)
    requires Inv(s)
    ensures Inv(Step(s, SendMessage))
  {
    if s.connected && Trim(s.draft) != "" {
      TrimIdempotent(s.draft);
      AppendKeepsSends(s.socketLog, [Emit(SendText(Trim(s.draft)))]);
    }
  }

  /** The actions that emit on or close the socket emit no text. */
  lemma SocketActionPreservesInv(s: ChatState, e: Event)
    requires Inv(s) && (e.Typed? || e.NextChat? || e.ExitChat?)
    ensures Inv(Step(s, e))
  {
    if e.Typed? {
      if s.connected { AppendKeepsSends(s.socketLog, [Emit(Typing(s.myName))]); }
    } else if e.NextChat? {
      if s.hasSocket { AppendKeepsSends(s.socketLog, [Emit(Leave), Close]); }
    } else {
      AppendKeepsSends(s.socketLog, if s.hasSocket then [Close] else []);
    }
  }

  /** The events that leave the socket log and the message list alone. */
  lemma LocalStepPreservesInv(s: ChatState, e: Event)
    requires Inv(s)
    requires e.TokenFailed? || e.EditDraft? || e.ToggleEmojiPicker? || e.EmojiSelected? || e.Elapse?
    ensures Inv(Step(s, e))
  {
  }

  lemma {:induction false} StepPreservesInv(s: ChatState, e: Event)
    requires Inv(s)
    ensures Inv(Step(s, e))
  {
    if e.Receive? {
      if s.hasSocket { HandlePreservesInv(s, e.server); }
    } else if e.InitialToken? || e.RequeueToken? {
      TokenStepPreservesInv(s, e);
    } else if e.SendMessage? {
      SendStepPreservesInv(s);
    } else if e.Typed? || e.NextChat? || e.ExitChat? {
      SocketActionPreservesInv(s, e);
    } else {
      LocalStepPreservesInv(s, e);
    }
  }

  lemma {:induction false} RunPreservesInv(s: ChatState, evs: seq<Event>)
    requires Inv(s)
    ensures Inv(Run(s, evs))
    decreases |evs|
  {
    if evs != [] {
      StepPreservesInv(s, evs[0]);
      RunPreservesInv(Step(s, evs[0]), evs[1..]);
    }
  }

  // ---------------------------------------------------------------------------
  // Inbound events

  /** `connected`: the page is connected and no longer waiting, and exactly one
      CHAT.CONNECTED entry follows the earlier entries, which are unchanged. */
  lemma ConnectedAppendsBanner(s: ChatState)
    requires s.hasSocket
    ensures var r := Step(s, Receive(Connected));
            && r.connected && !r.waiting
            && |r.messages| == |s.messages| + 1
            && r.messages[..|s.messages|] == s.messages
            && r.messages[|s.messages|] == System(ConnectedKey)
            && r.waitingMessageShown == s.waitingMessageShown
  {
    assert Step(s, Receive(Connected)).messages[..|s.messages|] == s.messages;
  }

  /** `waiting`: the page waits, disconnected from any partner; a CHAT.WAITING entry is
      added exactly when none was shown yet in this attempt, and then one has been. */
  lemma WaitingShowsBannerOnce(s: ChatState)
    requires s.hasSocket
    ensures var r := Step(s, Receive(Waiting));
            && !r.connected && r.waiting && r.waitingMessageShown
            && r.messages == s.messages + (if s.waitingMessageShown then [] else [System(WaitingKey)])
  {
  }

  /** Repeated `waiting` events add nothing beyond the first. */
  lemma WaitingIdempotent(s: ChatState)
    ensures Step(Step(s, Receive(Waiting)), Receive(Waiting)) == Step(s, Receive(Waiting))
  {
  }

  /** `partner_left`: disconnected from the partner, one CHAT.PARTNER_LEFT entry added,
      and the waiting state and banner flag untouched. */
  lemma PartnerLeftAppendsBanner(s: ChatState)
    requires s.hasSocket
    ensures var r := Step(s, Receive(PartnerLeft));
            && !r.connected
            && r.messages == s.messages + [System(PartnerLeftKey)]
            && r.waiting == s.waiting && r.waitingMessageShown == s.waitingMessageShown
  {
  }

  /** `newMessage`: the list grows by exactly one user entry carrying the payload's
      sender name, text and formatted time; no check against earlier entries is made,
      so the same payload delivered twice appears twice. */
  lemma NewMessageAppendsUnconditionally(s: ChatState, sender: string, text: string, time: LocalTime)
    requires s.hasSocket
    ensures var e := Receive(NewMessage(sender, text, time));
            var r := Step(s, e);
            && r.messages == s.messages + [User(sender, text, FormatTime(time))]
            && Step(r, e).messages == s.messages + [User(sender, text, FormatTime(time)), User(sender, text, FormatTime(time))]
  {
  }

  /** A typing pulse carrying the page's own name changes nothing. */
  lemma OwnTypingIgnored(s: ChatState)
    ensures Step(s, Receive(TypingFrom(s.myName))) == s
  {
  }

  /** Whether a run contains a typing pulse from someone other than `me`. */
  predicate ForeignPulseIn(evs: seq<Event>, me: string) {
    exists i :: 0 <= i < |evs| && evs[i].Receive? && evs[i].server.TypingFrom?
                && evs[i].server.senderName != me
  }

  /** Total time that passes during a run. */
  function Elapsed(evs: seq<Event>): nat {
    if evs == [] then 0
    else (if evs[0].Elapse? then evs[0].ms else 0) + Elapsed(evs[1..])
  }

  /** A socket event other than a foreign typing pulse leaves the name, the clock and
      the typing deadline alone. */
  lemma QuietHandle(s: ChatState, e: ServerEvent)
    requires !(e.TypingFrom? && e.senderName != s.myName)
    ensures var t := Handle(s, e);
            t.myName == s.myName && t.typingDeadline == s.typingDeadline && t.clock == s.clock
  {
    match e
    case Connected =>
    case Waiting =>
    case PartnerLeft =>
    case NewMessage(_, _, _) =>
    case TypingFrom(_) =>
    case UserCount(_) =>
  }

  /** One step that is not a foreign typing pulse keeps the name and the typing
      deadline, and advances the clock by the time it lets pass. */
  lemma QuietStep(s: ChatState, e: Event)
    requires !(e.Receive? && e.server.TypingFrom? && e.server.senderName != s.myName)
    ensures var t := Step(s, e);
            && t.myName == s.myName
            && t.typingDeadline == s.typingDeadline
            && t.clock == s.clock + (if e.Elapse? then e.ms else 0)
  {
    if e.Receive? && s.hasSocket {
      QuietHandle(s, e.server);
    }
  }

  lemma {:induction false} QuietRun(s: ChatState, evs: seq<Event>)
    requires !ForeignPulseIn(evs, s.myName)
    ensures var r := Run(s, evs);
            && r.myName == s.myName
            && r.typingDeadline == s.typingDeadline
            && r.clock == s.clock + Elapsed(evs)
    decreases |evs|
  {
    if evs != [] {
      var t := Step(s, evs[0]);
      QuietStep(s, evs[0]);
      QuietRun(t, evs[1..]);
    }
  }

  /** The typing indicator: after a pulse from someone else, and as long as no further
      such pulse arrives, the indicator stays on exactly until 1000 ms have passed. */
  lemma {:induction false} TypingIndicatorWindow(s: ChatState, name: string, evs: seq<Event>)
    requires Inv(s) && s.hasSocket && name != s.myName
    requires !ForeignPulseIn(evs, s.myName)
    ensures Run(Step(s, Receive(TypingFrom(name))), evs).isTyping <==> Elapsed(evs) < TypingWindow
  {
    var t := Step(s, Receive(TypingFrom(name)));
    StepPreservesInv(s, Receive(TypingFrom(name)));
    QuietRun(t, evs);
    RunPreservesInv(t, evs);
  }

  // ---------------------------------------------------------------------------
  // Local actions

  /** `sendMessage`: when disconnected, or when the draft is blank (all whitespace),
      nothing happens at all; otherwise the trimmed draft is emitted once and the draft
      cleared. The message list is never touched. */
  lemma SendMessageContract(s: ChatState)
    ensures var r := Step(s, SendMessage);
            && r.messages == s.messages
            && (!s.connected || AllWhitespace(s.draft) ==> r == s)
            && (s.connected && !AllWhitespace(s.draft) ==>
                  && r.socketLog == s.socketLog + [Emit(SendText(Trim(s.draft)))]
                  && r.draft == ""
                  && r == s.(socketLog := r.socketLog, draft := ""))
  {
    TrimEmptyIffAllWhitespace(s.draft);
  }

  /** `onTyping` emits a typing pulse with the page's own name only while connected. */
  lemma TypedEmitsOnlyWhileConnected(s: ChatState)
    ensures var r := Step(s, Typed);
            && (s.connected ==> r.socketLog == s.socketLog + [Emit(Typing(s.myName))])
            && (!s.connected ==> r == s)
  {
  }

  /** `onEmojiSelect` appends the emoji to the draft and closes the picker. */
  lemma EmojiAppendsToDraft(s: ChatState, u: string)
    ensures var r := Step(s, EmojiSelected(u));
            && r.draft == s.draft + u && r.draft[..|s.draft|] == s.draft
            && !r.showEmoji && r.messages == s.messages && r.socketLog == s.socketLog
  {
    assert (s.draft + u)[..|s.draft|] == s.draft;
  }

  /** `nextChat` without a socket does nothing; otherwise it emits leave, then
      disconnects, and starts a fresh attempt: no messages, not connected, waiting, and
      no waiting banner shown yet. */
  lemma NextChatResets(s: ChatState)
    ensures var r := Step(s, NextChat);
            && (!s.hasSocket ==> r == s)
            && (s.hasSocket ==>
                  && r.socketLog == s.socketLog + [Emit(Leave), Close]
                  && r.messages == [] && !r.connected && r.waiting && !r.waitingMessageShown)
  {
  }

  /** So a `waiting` event after `nextChat` shows the banner again, as the only entry. */
  lemma BannerReturnsAfterNextChat(s: ChatState)
    requires s.hasSocket
    ensures Step(Step(s, NextChat), Receive(Waiting)).messages == [System(WaitingKey)]
  {
  }

  // ---------------------------------------------------------------------------
  // Whole runs

  /** At most one waiting banner is ever on screen, whatever happens from page load. */
  lemma AtMostOneWaitingBanner(myName: string, evs: seq<Event>)
    ensures CountSystem(Run(Initial(myName), evs).messages, WaitingKey) <= 1
  {
    RunPreservesInv(Initial(myName), evs);
  }

  /** Nothing the server ever receives through `sendMessage` is blank or untrimmed. */
  lemma SentTextsAreTrimmed(myName: string, evs: seq<Event>, i: nat, text: string)
    requires i < |Run(Initial(myName), evs).socketLog|
    requires Run(Initial(myName), evs).socketLog[i] == Emit(SendText(text))
    ensures text != "" && Trim(text) == text
  {
    RunPreservesInv(Initial(myName), evs);
    assert WellFormedSend(Run(Initial(myName), evs).socketLog[i]);
  }

  /** The page-load sequence in the code: the token reply opens a socket, `initSocket`
      immediately leaves and closes it, opens another and joins with the token; a
      `waiting` event then a `connected` event leave both banners in the list. */
  lemma LoadThenPairScenario()
    ensures var r := Run(Initial("Alice"), [InitialToken("tok-1"), Receive(Waiting), Receive(Connected)]);
            && r.socketLog == [Open, Emit(Leave), Close, Open, Emit(Join("tok-1"))]
            && r.messages == [System(WaitingKey), System(ConnectedKey)]
            && r.connected && !r.waiting && r.token == "tok-1"
  {
  }
}
