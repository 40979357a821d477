/** The chat page component. Its fields are the ones the handlers and actions update
    in place; sockets are reduced to the log of what is done to them, the typing timer
    to its due time on an explicit clock. Every method is proved to change the fields
    exactly as `Session.Step` prescribes for its event, and to keep `Session.Inv`. */
module ChatComponent {
  import opened JsString
  import opened TimeFormat
  import opened Session

  class Chat {
    const myName: string
    var hasSocket: bool
    var token: string
    var messages: seq<ChatEntry>
    var message: string
    var connected: bool
    var waiting: bool
    var isTyping: bool
    var waitingMessageShown: bool
    var showEmoji: bool
    var connectedUsers: int
    var clock: int
    var typingDeadline: int
    var socketLog: seq<SocketOp>
    var navigations: seq<string>

    /** The component's state as a value. */
    function Model(): ChatState
      reads this
    {
      ChatState(myName, hasSocket, token, messages, message, connected, waiting, isTyping,
                waitingMessageShown, showEmoji, connectedUsers, clock, typingDeadline,
                socketLog, navigations)
    }

    ghost predicate Valid()
      reads this
    {
      Inv(Model())
    }

    constructor (name: string)
      ensures Valid() && Model() == Initial(name)
    {
      myName := name;
      hasSocket, token, messages, message := false, "", [], "";
      connected, waiting, isTyping, waitingMessageShown, showEmoji := false, false, false, false, false;
      connectedUsers, clock, typingDeadline := 0, 0, 0;
      socketLog, navigations := [], [];
    }

    // -------------------------------------------------------------------------
    // Socket lifecycle

    /** `initSocket(token)`: retire the current socket, open a new one, join. A helper
        of the token replies rather than an event of its own. */
    method InitSocket(t: string)
      requires Valid()
      modifies this
      ensures Valid() && Model() == Session.InitSocket(old(Model()), t)
    {
      InitSocketPreservesInv(Model(), t);
      if hasSocket {
        socketLog := socketLog + [Emit(Leave), Close];
      }
      socketLog := socketLog + [Open, Emit(Join(t))];
      hasSocket := true;
    }

    /** The page-load token request succeeded: keep the token, open a socket (on which
        only the user count is listened to), then `initSocket`. */
    method OnInitialToken(t: string)
      requires Valid()
      modifies this
      ensures Valid() && Model() == Step(old(Model()), InitialToken(t))
    {
      ghost var before := Model();
      StepPreservesInv(before, InitialToken(t));
      token := t;
      socketLog := socketLog + [Open];
      hasSocket := true;
      InitSocket(t);
      assert Model() == Step(before, InitialToken(t));
    }

    /** The token request made by `nextChat` succeeded: keep the token and `initSocket`. */
    method OnRequeueToken(t: string)
      requires Valid()
      modifies this
      ensures Valid() && Model() == Step(old(Model()), RequeueToken(t))
    {
      ghost var before := Model();
      StepPreservesInv(before, RequeueToken(t));
      token := t;
      InitSocket(t);
      assert Model() == Step(before, RequeueToken(t));
    }

    /** A token request failed: back to the start page. */
    method OnTokenFailed()
      requires Valid()
      modifies this
      ensures Valid() && Model() == Step(old(Model()), TokenFailed)
    {
      navigations := navigations + ["/"];
    }

    // -------------------------------------------------------------------------
    // Handlers installed by initSocket; they exist only once a socket does.

    /** `addSystemMessage(key)`: a helper of the presence handlers, which restore
        `Valid()` themselves. */
    method AddSystemMessage(key: string)
      modifies this
      ensures Model() == Session.AddSystemMessage(old(Model()), key)
    {
      messages := messages + [System(key)];
    }

    method OnConnected()
      requires Valid() && hasSocket
      modifies this
      ensures Valid() && Model() == Step(old(Model()), Receive(Connected))
    {
      ghost var before := Model();
      connected := true;
      waiting := false;
      ghost var mid := Model();
      AddSystemMessage(ConnectedKey);
      assert Model() == Step(before, Receive(Connected)) by {
        assert mid == before.(connected := true, waiting := false);
      }
      StepPreservesInv(before, Receive(Connected));
    }

    method OnUserCount(count: int)
      requires Valid() && hasSocket
      modifies this
      ensures Valid() && Model() == Step(old(Model()), Receive(UserCount(count)))
    {
      connectedUsers := count;
    }

    method OnWaiting()
      requires Valid() && hasSocket
      modifies this
      ensures Valid() && Model() == Step(old(Model()), Receive(Waiting))
    {
      ghost var before := Model();
      connected := false;
      waiting := true;
      ghost var mid := Model();
      if !waitingMessageShown {
        AddSystemMessage(WaitingKey);
        waitingMessageShown := true;
      }
      assert Model() == Step(before, Receive(Waiting)) by {
        assert mid == before.(connected := false, waiting := true);
      }
      StepPreservesInv(before, Receive(Waiting));
    }

    method OnPartnerLeft()
      requires Valid() && hasSocket
      modifies this
      ensures Valid() && Model() == Step(old(Model()), Receive(PartnerLeft))
    {
      ghost var before := Model();
      connected := false;
      ghost var mid := Model();
      AddSystemMessage(PartnerLeftKey);
      assert Model() == Step(before, Receive(PartnerLeft)) by {
        assert mid == before.(connected := false);
      }
      StepPreservesInv(before, Receive(PartnerLeft));
    }

    method OnNewMessage(sender: string, text: string, time: LocalTime)
      requires Valid() && hasSocket
      modifies this
      ensures Valid() && Model() == Step(old(Model()), Receive(NewMessage(sender, text, time)))
    {
      ghost var before := Model();
      StepPreservesInv(before, Receive(NewMessage(sender, text, time)));
      messages := messages + [User(sender, text, FormatTime(time))];
      assert Model() == Step(before, Receive(NewMessage(sender, text, time)));
    }

    /** An inbound typing pulse: unless it carries the page's own name, show the
        indicator and re-arm the timer one window from now. */
    method OnTypingReceived(senderName: string)
      requires Valid() && hasSocket
      modifies this
      ensures Valid() && Model() == Step(old(Model()), Receive(TypingFrom(senderName)))
    {
      if senderName != myName {
        isTyping := true;
        typingDeadline := clock + TypingWindow;
      }
    }

    // -------------------------------------------------------------------------
    // User actions

    /** The input box bound to the draft. */
    method EditDraft(text: string)
      requires Valid()
      modifies this
      ensures Valid() && Model() == Step(old(Model()), Event.EditDraft(text))
    {
      message := text;
    }

    method SendMessage()
      requires Valid()
      modifies this
      ensures Valid() && Model() == Step(old(Model()), Event.SendMessage)
    {
      ghost var before := Model();
      StepPreservesInv(before, Event.SendMessage);
      var text := Trim(message);
      if !connected || text == "" {
        return;
      }
      socketLog := socketLog + [Emit(SendText(text))];
      message := "";
      assert Model() == before.(socketLog := socketLog, draft := "");
      assert Model() == Step(before, Event.SendMessage);
    }

    method OnTyping()
      requires Valid()
      modifies this
      ensures Valid() && Model() == Step(old(Model()), Typed)
    {
      ghost var before := Model();
      StepPreservesInv(before, Typed);
      if connected {
        socketLog := socketLog + [Emit(Typing(myName))];
      }
      assert Model() == Step(before, Typed);
    }

    /** `showEmojiPicker`, without its styling of the picker's shadow DOM. */
    method ShowEmojiPicker()
      requires Valid()
      modifies this
      ensures Valid() && Model() == Step(old(Model()), ToggleEmojiPicker)
    {
      showEmoji := !showEmoji;
    }

    method OnEmojiSelect(unicode: string)
      requires Valid()
      modifies this
      ensures Valid() && Model() == Step(old(Model()), EmojiSelected(unicode))
    {
      message := message + unicode;
      showEmoji := false;
    }

    /** `nextChat` up to its token request, whose reply arrives later as
        `OnRequeueToken` or `OnTokenFailed`. */
    method NextChat()
      requires Valid()
      modifies this
      ensures Valid() && Model() == Step(old(Model()), Event.NextChat)
    {
      ghost var before := Model();
      StepPreservesInv(before, Event.NextChat);
      if !hasSocket {
        return;
      }
      socketLog := socketLog + [Emit(Leave), Close];
      messages := [];
      connected := false;
      waiting := true;
      waitingMessageShown := false;
      assert Model() == Step(before, Event.NextChat);
    }

    method ExitChat()
      requires Valid()
      modifies this
      ensures Valid() && Model() == Step(old(Model()), Event.ExitChat)
    {
      ghost var before := Model();
      StepPreservesInv(before, Event.ExitChat);
      if hasSocket {
        socketLog := socketLog + [Close];
      }
      navigations := navigations + ["/"];
      assert Model() == Step(before, Event.ExitChat);
    }

    /** Time passes; the typing timer, if due, hides the indicator. */
    method Elapse(ms: nat)
      requires Valid()
      modifies this
      ensures Valid() && Model() == Step(old(Model()), Event.Elapse(ms))
    {
      if isTyping && clock + ms >= typingDeadline {
        isTyping := false;
      }
      clock := clock + ms;
    }
  }
}
