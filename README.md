# SayHello client core in Dafny

SayHello is an anonymous chat client written in Angular. A visitor picks a display name
on the start page. The page asks the server for a one-time token and opens the chat page.
The chat page joins a pairing queue over a socket.io connection, waits for a stranger,
exchanges text and typing pulses, and can ask for a new partner or leave. A route guard
lets only a mobile web browser in, not a desktop browser or the app's own packaged web view.

This project models three pieces of that client and proves properties about them.

- **The chat page's session bookkeeping** (`chat.ts`).
  - `ChatComponent.Chat` is a class with the component's own fields and one method per
    socket handler, user action and token reply.
  - The pure state machine `Session.Step` over `Session.ChatState` specifies every
    event method: each one ensures `Model() == Step(old(Model()), event)` and keeps
    `Valid()`, whose meaning is `Session.Inv`.
  - Two methods are internal helpers of those event methods, with contracts of their own.
    `InitSocket` ensures `Model() == Session.InitSocket(old(Model()), token)` and keeps
    `Valid()`. `AddSystemMessage` ensures `Model() == Session.AddSystemMessage(old(Model()), key)`;
    the presence handlers that call it restore `Valid()` afterwards.
  - The socket is reduced to the log of what the page does to it: open, emit
    join/leave/sendMessage/typing, disconnect.
  - The typing timer becomes a deadline on an explicit millisecond clock. The `Elapse`
    event advances the clock and fires a due timer.
  - `formatTime` is a pure function of the local hour and minute, or of an invalid date
    (`TimeFormat`).
- **The start page's username rule** (`home.ts`): the four validators, the error chosen by
  precedence, the trim, and what a token reply leads to (`Home`).
- **The route guard's decision** (`web-only-guard.ts`): the regular-expression tests on the
  user agent, stated as case-insensitive substring conditions (`WebOnlyGuard`).

JavaScript's `\s` class and `String.prototype.trim` use one shared whitespace set. Both are
modelled in `JsString`.

Source paths below are relative to the repository root.

## Model

| member | source | states |
|---|---|---|
| `JsString.WhitespaceRunEnd` | src/app/components/chat/chat.ts:144-145 | The leading run of whitespace that `trim()` drops: every character in it is whitespace, and the character after it is not |
| `JsString.WhitespaceRunStart` | src/app/components/chat/chat.ts:144-145 | The trailing run of whitespace that `trim()` drops: every character in it is whitespace, and the character before it is not |
| `JsString.TrimIsInfix` | src/app/components/home/home.ts:82 | `trim()` returns the infix left after removing whitespace at both ends, and the result neither starts nor ends with whitespace |
| `JsString.TrimEmptyIffAllWhitespace` | src/app/components/chat/chat.ts:144 | The draft trims to the empty string exactly when every character is whitespace |
| `JsString.TrimKeepsWhitespaceFree` | src/app/components/home/home.ts:24 | A string with no whitespace is left unchanged by `trim()` |
| `JsString.TrimIdempotent` | src/app/components/chat/chat.ts:145 | Trimming an already trimmed text changes nothing |
| `TimeFormat.Decimal` | src/app/components/chat/chat.ts:241 | Number-to-text conversion gives digits that denote the number, one digit below 10, two from 10 to 99, and no leading zero |
| `TimeFormat.ClockHour` | src/app/components/chat/chat.ts:239 | The 12-hour clock value lies in 1..12 and is congruent to the hour modulo 12 |
| `TimeFormat.MinutesText` | src/app/components/chat/chat.ts:240 | Minutes are always rendered as exactly two digits that denote the minute value, with a leading zero below 10 |
| `TimeFormat.FormatTimeLayout` | src/app/components/chat/chat.ts:234-242 | A formatted time is 1 or 2 hour digits in 1..12, a colon, two minute digits, a space, then AM exactly when the hour is before 12, otherwise PM |
| `TimeFormat.MidnightAndNoon` | src/app/components/chat/chat.ts:238-239 | Hour 0 renders as 12 AM, hour 12 as 12 PM, and 21:05 as "9:05 PM" |
| `TimeFormat.ReadFormattedTime` | src/app/components/chat/chat.ts:234-242 | Reading a formatted time back gives the original local time, and the invalid date ("12:NaN AM") reads back as invalid |
| `TimeFormat.FormatTimeInjective` | src/app/components/chat/chat.ts:234-242 | Two different times never render to the same text |
| `Session.AddSystemMessageCounts` | src/app/components/chat/chat.ts:224-228 | The log grows by one system entry with the key, after the old entries unchanged; the count of system entries with any key k rises by one exactly when k is the appended key |
| `Session.InitSocketPreservesInv` | src/app/components/chat/chat.ts:84-91 | Retiring the socket and opening and joining a new one keeps the invariant: no text is sent |
| `Session.InitialSatisfiesInv` | src/app/components/chat/chat.ts:30-41 | The freshly constructed component satisfies the session invariant |
| `Session.HandlePreservesInv` | src/app/components/chat/chat.ts:92-140 | Every handler installed by `initSocket` keeps the invariant: at most one waiting banner, matching `waitingMessageShown`; never connected and waiting at once; the typing indicator on exactly while its timer is pending; every sent text non-blank and trimmed |
| `Session.PresencePreservesInv` | src/app/components/chat/chat.ts:92-117 | The `connected`, `waiting` and `partner_left` handlers keep the single waiting banner in step with `waitingMessageShown` |
| `Session.StepPreservesInv` | src/app/components/chat/chat.ts:62-216 | Every event keeps the invariant: handlers, token replies, actions and the passage of time |
| `Session.TokenStepPreservesInv` | src/app/components/chat/chat.ts:62-91 | A token reply, with its `initSocket`, keeps the invariant |
| `Session.SendStepPreservesInv` | src/app/components/chat/chat.ts:143-147 | `sendMessage` keeps the invariant: what it emits is trimmed and nonempty |
| `Session.SocketActionPreservesInv` | src/app/components/chat/chat.ts:149-216 | `onTyping`, `nextChat` and `exitChat` keep the invariant |
| `Session.LocalStepPreservesInv` | src/app/components/chat/chat.ts:134-198 | A failed token request, a draft edit, the emoji picker and the passage of time keep the invariant |
| `Session.RunPreservesInv` | src/app/components/chat/chat.ts:62-216 | The invariant holds after any sequence of events |
| `Session.ConnectedAppendsBanner` | src/app/components/chat/chat.ts:92-96 | On `connected` the page is connected and not waiting, and exactly one CHAT.CONNECTED entry follows the unchanged earlier entries |
| `Session.WaitingShowsBannerOnce` | src/app/components/chat/chat.ts:104-111 | On `waiting` the page is disconnected and waiting, and CHAT.WAITING is appended exactly when none was shown yet, after which one has been shown |
| `Session.WaitingIdempotent` | src/app/components/chat/chat.ts:104-111 | A second `waiting` event after the first changes nothing |
| `Session.PartnerLeftAppendsBanner` | src/app/components/chat/chat.ts:113-117 | On `partner_left` the page is disconnected and one CHAT.PARTNER_LEFT entry is appended, with `waiting` and `waitingMessageShown` unchanged |
| `Session.NewMessageAppendsUnconditionally` | src/app/components/chat/chat.ts:119-128 | `newMessage` appends exactly one user entry carrying the payload's sender, text and formatted time; the same payload delivered twice appears twice |
| `Session.OwnTypingIgnored` | src/app/components/chat/chat.ts:130-131 | A typing pulse carrying the page's own name changes nothing |
| `Session.QuietHandle` | src/app/components/chat/chat.ts:92-140 | No socket handler but a foreign typing pulse touches the typing deadline or the clock |
| `Session.QuietStep` | src/app/components/chat/chat.ts:130-140 | Any event other than a foreign typing pulse leaves the typing deadline alone and advances the clock only by the time it lets pass |
| `Session.QuietRun` | src/app/components/chat/chat.ts:130-140 | A run without foreign typing pulses keeps the deadline and advances the clock by the run's total elapsed time |
| `Session.TypingIndicatorWindow` | src/app/components/chat/chat.ts:130-140 | After a pulse from someone else, and until another one arrives, the indicator is on exactly while less than 1000 ms have passed |
| `Session.SendMessageContract` | src/app/components/chat/chat.ts:143-147 | Nothing at all changes when the page is disconnected or the draft is all whitespace. Otherwise exactly the trimmed draft is emitted and the draft is cleared, and the message list is never touched |
| `Session.TypedEmitsOnlyWhileConnected` | src/app/components/chat/chat.ts:149-153 | `onTyping` emits one typing pulse with the page's own name while connected, and does nothing otherwise |
| `Session.EmojiAppendsToDraft` | src/app/components/chat/chat.ts:195-198 | The emoji is appended to the draft, the earlier draft is kept as its prefix, the picker closes, and the messages and socket are untouched |
| `Session.NextChatResets` | src/app/components/chat/chat.ts:200-208 | Without a socket `nextChat` does nothing. Otherwise it emits leave and then disconnects, and leaves no messages, not connected, waiting, and no waiting banner shown |
| `Session.BannerReturnsAfterNextChat` | src/app/components/chat/chat.ts:104-111 | A `waiting` event after `nextChat` shows the waiting banner again, as the only entry |
| `Session.AtMostOneWaitingBanner` | src/app/components/chat/chat.ts:104-111 | Whatever happens from page load on, the list never holds more than one CHAT.WAITING entry |
| `Session.SentTextsAreTrimmed` | src/app/components/chat/chat.ts:143-147 | Every text sent over any run is non-blank and equal to its own trim |
| `Session.LoadThenPairScenario` | src/app/components/chat/chat.ts:62-96 | On page load the token reply opens a socket, and `initSocket` at once leaves and closes it, opens another and joins with the token. A following `waiting` then `connected` leave both banners, in that order |
| `ChatComponent.Chat.constructor` | src/app/components/chat/chat.ts:30-43 | The fields start as declared, satisfying the invariant |
| `ChatComponent.Chat.InitSocket` | src/app/components/chat/chat.ts:84-91 | An existing socket is told to leave and disconnected, then a new socket is opened and joins with the token; the invariant is kept |
| `ChatComponent.Chat.OnInitialToken` | src/app/components/chat/chat.ts:62-75 | The page-load token is stored, a socket is opened, then `initSocket` runs; state follows `Step` and keeps the invariant |
| `ChatComponent.Chat.OnRequeueToken` | src/app/components/chat/chat.ts:212 | The requeue token is stored and `initSocket` runs with it; state follows `Step` and keeps the invariant |
| `ChatComponent.Chat.OnTokenFailed` | src/app/components/chat/chat.ts:76-80 | A failed token request navigates to the start page; state follows `Step` and keeps the invariant |
| `ChatComponent.Chat.AddSystemMessage` | src/app/components/chat/chat.ts:224-228 | Appends one system entry with the key and changes nothing else |
| `ChatComponent.Chat.OnConnected` | src/app/components/chat/chat.ts:92-96 | The `connected` handler follows `Step` and keeps the invariant |
| `ChatComponent.Chat.OnUserCount` | src/app/components/chat/chat.ts:98-102 | The `user_count` handler stores the count; state follows `Step` and keeps the invariant |
| `ChatComponent.Chat.OnWaiting` | src/app/components/chat/chat.ts:104-111 | The `waiting` handler follows `Step` and keeps the invariant |
| `ChatComponent.Chat.OnPartnerLeft` | src/app/components/chat/chat.ts:113-117 | The `partner_left` handler follows `Step` and keeps the invariant |
| `ChatComponent.Chat.OnNewMessage` | src/app/components/chat/chat.ts:119-128 | The `newMessage` handler follows `Step` and keeps the invariant |
| `ChatComponent.Chat.OnTypingReceived` | src/app/components/chat/chat.ts:130-140 | The `typing` handler re-arms the 1000 ms window for a foreign name; state follows `Step` and keeps the invariant |
| `ChatComponent.Chat.EditDraft` | src/app/components/chat/chat.ts:32 | The input box bound to `message` replaces the draft; state follows `Step` and keeps the invariant |
| `ChatComponent.Chat.SendMessage` | src/app/components/chat/chat.ts:143-147 | `sendMessage` follows `Step` and keeps the invariant |
| `ChatComponent.Chat.OnTyping` | src/app/components/chat/chat.ts:149-153 | `onTyping` follows `Step` and keeps the invariant |
| `ChatComponent.Chat.ShowEmojiPicker` | src/app/components/chat/chat.ts:155-156 | The picker's visibility flips; state follows `Step` and keeps the invariant |
| `ChatComponent.Chat.OnEmojiSelect` | src/app/components/chat/chat.ts:195-198 | `onEmojiSelect` follows `Step` and keeps the invariant |
| `ChatComponent.Chat.NextChat` | src/app/components/chat/chat.ts:200-208 | `nextChat`, up to its token request, follows `Step` and keeps the invariant |
| `ChatComponent.Chat.ExitChat` | src/app/components/chat/chat.ts:216 | `exitChat` disconnects any socket and navigates to the start page; state follows `Step` and keeps the invariant |
| `ChatComponent.Chat.Elapse` | src/app/components/chat/chat.ts:134-138 | Time passes and the typing timer, once due, hides the indicator; state follows `Step` and keeps the invariant |
| `Home.ChosenError` | src/app/components/home/home.ts:69-72 | The if/else-if chain picks an error that is present and outranks every other present one |
| `Home.NoErrorsIffAcceptable` | src/app/components/home/home.ts:19-26 | The control is valid exactly when the value is nonempty, 3 to 20 characters long and free of whitespace |
| `Home.AcceptableRequestsToken` | src/app/components/home/home.ts:82-89 | For an acceptable value a token is requested for the value exactly as typed |
| `Home.UnacceptableShowsError` | src/app/components/home/home.ts:66-80 | Any other value shows an error and returns before any request |
| `Home.StartChatAcceptsIff` | src/app/components/home/home.ts:65-89 | A token is requested exactly for acceptable values, and an error is shown exactly for the others |
| `Home.SilentReturnUnreachable` | src/app/components/home/home.ts:82-83 | The early return for a name that trims to nothing can never be reached |
| `Home.ErrorByPrecedence` | src/app/components/home/home.ts:66-72 | The one error shown follows the precedence required, too short, too long, whitespace |
| `Home.ChatRouteCarriesNameAndToken` | src/app/components/home/home.ts:90-105 | A granted token opens `/chat` with that token and exactly the name typed, and a failed request only shows the server error |
| `WebOnlyGuard.AllowedIffMobileWeb` | src/app/guards/web-only-guard.ts:21-28 | The route opens exactly for a mobile user agent without a packaged-app indicator, and the guard navigates to /Home exactly when it refuses |
| `WebOnlyGuard.EachApkIndicatorRefuses` | src/app/guards/web-only-guard.ts:14-26 | Any one of the five indicators marks the packaged app and refuses the route, even on a mobile user agent |
| `WebOnlyGuard.DesktopRefused` | src/app/guards/web-only-guard.ts:21-26 | A user agent with no mobile marker is refused and sent to /Home |
| `WebOnlyGuard.MarkerFoundInAnyCase` | src/app/guards/web-only-guard.ts:15-21 | A marker written in any mixture of letter cases, anywhere in the user agent, is found by the case-insensitive test |
| `WebOnlyGuard.VersionThenChromeFound` | src/app/guards/web-only-guard.ts:16 | Every user agent of the form "Version/", one or more digits or dots, any characters except line terminators, then "Chrome" (in any case) matches the version test |
| `WebOnlyGuard.VersionNeedsMarker` | src/app/guards/web-only-guard.ts:16 | The version test matches only where "version/" occurs |
| `WebOnlyGuard.AbsentCharacter` | src/app/guards/web-only-guard.ts:15-21 | A pattern containing a character the text lacks does not occur in the text |
| `WebOnlyGuard.AbsentLetter` | src/app/guards/web-only-guard.ts:15-21 | A letter absent from the user agent in both cases is absent from its lowered form |
| `WebOnlyGuard.AbsentLetterNotFound` | src/app/guards/web-only-guard.ts:15-21 | A case-insensitive test fails when one of the pattern's letters is missing from the user agent in both cases |
| `WebOnlyGuard.UnmarkedMobileAllowed` | src/app/guards/web-only-guard.ts:23-28 | A mobile user agent with none of the markers, and with neither global defined, is let through with no navigation |
| `WebOnlyGuard.AndroidWebViewRefused` | src/app/guards/web-only-guard.ts:12-15 | An Android web view marked "WV", with the marker in the vendor string standing in for an empty user agent, is refused |
| `WebOnlyGuard.OldWebViewRefused` | src/app/guards/web-only-guard.ts:16 | The older web view string "... Version/4.0 Chrome ..." is refused |
| `WebOnlyGuard.VersionNeedsChrome` | src/app/guards/web-only-guard.ts:16 | The version test matches only where "chrome" occurs |
| `WebOnlyGuard.IPhoneSafariAllowed` | src/app/guards/web-only-guard.ts:11-28 | A user agent naming "iPhone" in any case, with neither "wv", "median" nor "chrome" in any case, is let through with no navigation, as Safari's are |
| `WebOnlyGuard.IPhoneWithoutMarkerLettersAllowed` | src/app/guards/web-only-guard.ts:11-28 | Any user agent naming "iPhone", with none of the letters w, d, v elsewhere in either case, is let through with no navigation |

## Left out

- Network requests (the two `fetch` calls to `/start-chat`) are left out. Only their outcome comes in: `InitialToken`, `RequeueToken` or `TokenFailed` on the chat page, and `TokenReply` on the start page. The start page's request URL has no scheme, so in a browser it resolves relative to the page. That is outside the model.
- The socket.io transport is left out. Inbound events are modelled as possible at any moment once a socket exists, including on a socket the page has already disconnected. This over-approximates what the transport delivers, so every property holds whatever the server sends, in whatever order.
- The 500 ms delay before `initSocket` after a requeue (chat.ts:212) is collapsed into the `RequeueToken` event. A token reply and the delayed `initSocket` are therefore one step.
- `setTimeout` is modelled by a deadline on an explicit clock. `Elapse` fires the typing timer at exactly its due time, never late. `clearTimeout` followed by re-arming becomes overwriting the deadline.
- `scrollToBottom`, the `setTimeout` in `showEmojiPicker` that styles the picker's shadow DOM, `isDarkMode`, `currentDir`, change detection, `NgZone`, and the `ChatService` relay of the user count are left out. They are presentation.
- Sweet-alert dialogs, the translation service and the router are left out. A dialog is not modelled, a translated message is represented by its key, and a navigation is appended to `navigations`.
- `ngOnInit`'s reading of the query parameters and its redirect on an empty name (chat.ts:45-50) are left out. The component is constructed with its name.
- `ngOnDestroy` (chat.ts:246) is left out. Navigating to `/` destroys the page: `ExitChat` (chat.ts:216) and a failed token reply (chat.ts:79, 213) both do so. The model stops at that navigation, so the second `disconnect` and the cleared typing timer that follow it are not modelled.
- The unused `addChatMessage` (chat.ts:218-222) is left out: nothing in the page calls it.
- Parsing of the ISO time string, and the time zone conversion behind `getHours`/`getMinutes`, are left out. `formatTime` takes the local hour and minute, or an invalid date, directly.
- String length is counted in Unicode code points (`seq<char>`), while JavaScript counts UTF-16 code units. A name containing characters outside the Basic Multilingual Plane counts longer in the browser than here.
- The start page's sections list, a constant table for display, is left out.
- The code differs from the system's design description, and the model follows the code:
  - there is no message identity, no deduplication, no reactions, voice notes or recording presence, and no attempt-generation counter;
  - `connected` does not remove an earlier waiting banner;
  - `nextChat` does not reset `isTyping`, the draft or the emoji picker;
  - self and peer are distinguished by display name (`senderName !== myName`), not by connection identity;
  - the comment on the typing timer says 1.2 seconds, but the code waits 1000 ms, which is what the model uses.
