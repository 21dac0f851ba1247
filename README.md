# Real-time chat: presence counter and client session, in Dafny

This project models the two sequential parts of a Next.js + Socket.IO chat
application.

- **The presence counter on the server** (`pages/api/socket.ts`). A module-level
  `userCount` starts at 0. The first request to `/api/socket` attaches one
  Socket.IO server and registers the `connection` handler on it. Each connection
  increments the counter and broadcasts `userConnect` with the new value. It also
  arms a per-socket `disconnect` handler, which decrements the counter and
  broadcasts `userDisconnect`. Every request ends its response.
- **The client session** (`app/page.tsx`). The page holds `connected`,
  `userCount`, `userName`, `messageInput` and the transcript `chatMessages`.
  Socket events set the flag, append to the transcript and overwrite the
  count. `sendMessage` submits a non-empty box and clears it only on an ok
  response. The join announcement from `Moderator` is re-submitted until one
  submission succeeds. After that success the count is fetched once. The page
  shows a loading screen until connected, then name entry until a name is set,
  then the chat. Two pure helpers are modelled too: `titlecase` and the
  `[Me]` / `[name]` sender label.

Each handler run is one atomic step. Each stateful part has three layers:

- a value datatype for its whole state (`SocketApi.Registry`, `ChatSession.Session`);
- a function `Step` for one handler run and a function `Run` for a trace of runs;
- a class whose fields the handlers update in place (`SocketApi.PresenceServer`,
  `ChatSession.SessionClient`).

Some events can reach no handler. A connection before the first request has no
Socket.IO server to arrive at. A disconnection of a socket that is not counted
has no armed handler. Both change nothing and produce the output `Ignored`.

Each handler method of a class is proved to perform exactly `Step` on the
class's state. The one exception is `ChatSession.SessionClient.SendEnterRoomMessage`,
the retry loop inside a name-entry step, which is proved to perform exactly
`ChatSession.Announce`. The properties of the system are proved as lemmas about
`Step`, `Announce` and `Run`.

Requests leave the model as inputs. The outcome of each `/api/chat` submission is
a boolean. The body of the `/api/userCount` fetch is an `Option<int>`, and `None`
stands for a response without `ok`. The session records every submitted
message in `posted` and counts the count fetches in `countFetches`.

Files: `wrappers.dfy` (Option), `chat_message.dfy` (the `IChatMessage` payload),
`socket_api.dfy`, `text_format.dfy` (titlecase and sender label),
`chat_session.dfy`.

Where the code and the written design of the system differ, the model follows
the code:

- The design says a client without a name never receives a chat message. In
  the code the socket's `message` handler is registered on mount, so the
  transcript grows before a name is chosen; only its display is gated
  (app/page.tsx:101-104, 133). `ChatSession.TranscriptIsReceived` states the
  code's behaviour.
- The sender label compares names only. Another user who is literally named
  `Me` gets the same `[Me]` text as one's own entries, although not the same
  colour (`TextFormat.LabelMeIff`).

## Model

| member | source | states |
|---|---|---|
| `SocketApi.Step` | pages/api/socket.ts:12-54 | Only the connection and disconnection handlers change the counter. A connection raises it by one and broadcasts `userConnect` carrying the new value. A counted socket's disconnection lowers it by one and broadcasts `userDisconnect` carrying the new value, and the socket is no longer counted afterwards. A request always ends its response and leaves a server attached. A connection before any server is attached, and a disconnection of a socket that is not counted, are ignored and change nothing. A request arms no socket, a connection arms exactly the new socket and a disconnection disarms exactly its own, so every other counted socket stays counted. The invariant is kept. |
| `SocketApi.RunKeepsValid` | pages/api/socket.ts:8-22 | After any trace, the counter equals the number of sockets with an armed disconnect handler, so it is never negative. At most one Socket.IO server was ever constructed. |
| `SocketApi.CountIsConnectsMinusDisconnects` | pages/api/socket.ts:8-21 | After any trace, the counter has moved by exactly the number of `userConnect` broadcasts minus the number of `userDisconnect` broadcasts. |
| `SocketApi.PresenceFromStart` | pages/api/socket.ts:8-21 | From server start, the counter is connects minus disconnects, and it equals the number of open sockets, which is at least 0. |
| `SocketApi.EveryRequestEnded` | pages/api/socket.ts:31-55 | Every request in any trace ends its response, whether or not it attached the server. |
| `SocketApi.AttachedStays` | pages/api/socket.ts:32-53 | Once a server is attached, no later trace detaches, recreates or replaces it. |
| `SocketApi.TwoClientsScenario` | pages/api/socket.ts:12-21 | Two connections and one disconnection broadcast 1, 2 and 1, and a repeated disconnection of the same socket is ignored. |
| `SocketApi.PresenceServer.constructor` | pages/api/socket.ts:8 | The server starts with the counter at 0 and nothing attached. |
| `SocketApi.PresenceServer.HandleRequest` | pages/api/socket.ts:31-55 | The server is attached at most once, and an attached server is left untouched. The response is always ended. The effect is exactly one `Step` on a request. |
| `SocketApi.PresenceServer.OnConnection` | pages/api/socket.ts:12-15 | The counter rises by one and `userConnect` carries the new value. Before any server is attached, nothing happens. The effect is exactly one `Step`. |
| `SocketApi.PresenceServer.OnDisconnect` | pages/api/socket.ts:18-21 | For a counted socket, the counter falls by one and `userDisconnect` carries the new value. Any other socket is ignored. The counter stays at least 0. |
| `TextFormat.LowerStr` | app/page.tsx:12 | `toLowerCase` keeps the length and lower-cases each character. |
| `TextFormat.Split` | app/page.tsx:12 | `split(' ')` returns one more piece than there are spaces, and no piece contains a space. |
| `TextFormat.CapitalizeAll` | app/page.tsx:12-14 | The `map` step keeps the number of words and capitalizes each word in place. |
| `TextFormat.Join` | app/page.tsx:14 | `join(' ')` puts exactly one separator between consecutive words, so the result is as long as the words plus one per gap, and starts with the first word. |
| `TextFormat.JoinSplit` | app/page.tsx:12-14 | Joining the pieces of a split with single spaces gives back the original string. |
| `TextFormat.SplitJoin` | app/page.tsx:12-14 | Splitting a join of space-free words gives back the words. |
| `TextFormat.Capitalize` | app/page.tsx:13 | The map callback keeps the length, upper-cases the first character and leaves the rest of the word unchanged. |
| `TextFormat.CapitalizeWordsChars` | app/page.tsx:12-14 | Split, capitalize and join upper-case exactly the characters at position 0 or after a space. Length and all other characters are unchanged. |
| `TextFormat.Titlecase` | app/page.tsx:11-15 | `titlecase` is character for character the lower-cased input, with the first character of each space-separated word upper-cased. |
| `TextFormat.TitlecasePreservesSpaces` | app/page.tsx:11-15 | `titlecase` preserves the length and every space position. |
| `TextFormat.TitlecaseWords` | app/page.tsx:11-15 | The words of the result are the capitalized lower-cased words of the input, so the number of words is preserved. |
| `TextFormat.TitlecaseIdempotent` | app/page.tsx:11-15 | `titlecase(titlecase(s)) == titlecase(s)`. |
| `TextFormat.SenderLabel` | app/page.tsx:194-202 | An entry is highlighted as one's own exactly when its sender equals the session's name, and then reads `[Me]`. Otherwise the label is `[`, the sender's name, then `]`. |
| `TextFormat.LabelMeIff` | app/page.tsx:200-202 | The text `[Me]` appears exactly for one's own entries and for a sender named `Me`. |
| `TextFormat.LabelDistinguishesOthers` | app/page.tsx:200-202 | Other senders with equal labels have equal names. |
| `ChatSession.ViewOf` | app/page.tsx:119-133 | The chat screen is shown exactly when connected with a non-empty name. Name entry is shown exactly when connected without a name. |
| `ChatSession.Attempts` | app/page.tsx:67-79 | The retry makes submissions up to and including the first success, and all earlier ones failed. Without a success it makes one submission per recorded outcome. |
| `ChatSession.Announce` | app/page.tsx:61-80 | The join retry only appends submissions, at least one submission when any outcome is recorded. It leaves the connection, the name, the message box and the transcript unchanged, and changes the displayed count only to the value an ok count fetch returned. |
| `ChatSession.AnnounceEffect` | app/page.tsx:61-79 | The retry submits the identical `Moderator` announcement once per attempt. It fetches the count once if some attempt succeeds and takes the count only from an ok fetch. The retry stays due when no attempt succeeds, and no other field changes. |
| `ChatSession.JoinRetry` | app/page.tsx:61-79 | k failures and then a success submit exactly k + 1 identical announcements and fetch the count exactly once. The count changes only if that fetch is ok. The transcript and the message box are untouched. |
| `ChatSession.JoinStillRetrying` | app/page.tsx:67-79 | While every submission fails, one announcement is submitted per attempt. Nothing is fetched and the retry stays due. |
| `ChatSession.Step` | app/page.tsx:48-114 | A connected session stays connected, and only `connect` connects it. Only a `message` event changes the transcript. The name is set once, on the name screen, to a non-empty value. Submissions are only appended, by sending or by entering a name, and only while connected. The displayed count changes only on a `userConnect`/`userDisconnect` event or through the join's ok count fetch. Only the join fetches the count or leaves a retry due. The message box changes only by typing, to the typed text, or by an ok send, which clears it. |
| `ChatSession.MessageAppends` | app/page.tsx:101-104 | A `message` event appends its payload at the end. The length grows by one and earlier entries stay unchanged and in order. |
| `ChatSession.CountOverwrites` | app/page.tsx:95-114 | `userConnect` and `userDisconnect` set the displayed count to the received value, whatever it was before, and change nothing else. `connect` sets `connected` and changes nothing else. |
| `ChatSession.SendMessageEffect` | app/page.tsx:48-59 | An empty box sends nothing and changes nothing. On the chat screen, a non-empty box submits exactly `{userName, message: messageInput}`. The box is cleared if and only if the response is ok, and is kept intact on failure. Anything submitted implies connected and named. A send changes nothing but the submissions and the box. |
| `ChatSession.EnterNameEffect` | app/page.tsx:61-86 | Something is submitted only after a non-empty name is entered on the name screen. The first submission is `{userName: "Moderator", message: name + " has entered the chat"}`. |
| `ChatSession.StepKeepsValid` | app/page.tsx:48-114 | Every handler keeps the session invariant, and a chosen name never changes. |
| `ChatSession.RunKeepsValid` | app/page.tsx:48-114 | Every trace keeps the session invariant, and a chosen name never changes. |
| `ChatSession.TranscriptIsReceived` | app/page.tsx:101-104 | After any trace, the transcript is the old transcript followed by exactly the received message payloads, in arrival order. |
| `ChatSession.NothingSentBeforeNamed` | app/page.tsx:48-135 | From mount, nothing is submitted before the session is connected and named. Every submission is the announcement of that name or a non-empty message sent under it. |
| `ChatSession.SessionClient.constructor` | app/page.tsx:22-31 | Every piece of React state starts at its initial value. |
| `ChatSession.SessionClient.OnConnect` | app/page.tsx:95-98 | The `connect` handler sets `connected`. |
| `ChatSession.SessionClient.OnMessage` | app/page.tsx:101-104 | The `message` handler pushes the payload onto the end of the transcript. |
| `ChatSession.SessionClient.OnUserConnect` | app/page.tsx:107-109 | The `userConnect` handler overwrites the count. |
| `ChatSession.SessionClient.OnUserDisconnect` | app/page.tsx:112-114 | The `userDisconnect` handler overwrites the count. |
| `ChatSession.SessionClient.EditMessage` | app/page.tsx:224-226 | Typing on the chat screen replaces the message box. |
| `ChatSession.SessionClient.SendMessage` | app/page.tsx:48-59 | A message is sent exactly when on the chat screen with a non-empty box. It is `{userName, message}` and is appended to the submissions. The effect is exactly one `Step`. |
| `ChatSession.SessionClient.SendEnterRoomMessage` | app/page.tsx:61-80 | Called only with a non-empty name, as the effect at app/page.tsx:83 does. The loop submits one identical announcement per attempt until the first success. It fetches the count once after a success. It performs exactly `Announce` and reports the number of attempts. |
| `ChatSession.SessionClient.EnterName` | app/page.tsx:82-86 | Setting a non-empty name on the name screen starts the join announcement. Otherwise nothing happens. |

## Left out

- Socket.IO transport and server options (pages/api/socket.ts:40-47): the path, transports, ping interval and timeout, and compression. These are library configuration. The logging calls and the environment-provided site URL are left out too.
- The `/api/chat` and `/api/userCount` endpoints are not part of this model. Their outcomes are inputs. The server-side relay of submitted messages to every client is therefore not modelled; a `message` event is an input of the session.
- `backend/signal_handler.go` is not part of this model: it is key generation, randomness and encryption through a foreign library, behind a mutex, and nothing in the chat flow calls it. `app/layout.tsx` is static metadata and fonts.
- The JSX markup and styling (app/page.tsx:119-250), apart from the screen gating, the sender label and its colour. The name box's own state (`userNameInput`, shown through `titlecase` at app/page.tsx:145) is not modelled. `EnterName` receives the name directly. The focus call after sending (app/page.tsx:58) is left out too.
- The React effect lifecycle: the client socket is torn down and recreated whenever `chatMessages` changes (app/page.tsx:88-117). This churn would show up on the server as extra disconnects and connects.
- Timing and interleaving: the 500 ms delay between join retries is not modelled, and retries are counted instead. The whole retry loop is one atomic step, while in the page, socket events can arrive between two attempts.
- ChatSession.Announce: a submission whose `fetch` rejects (a network error, app/page.tsx:67) is not modelled. In the page the callback then throws before the retry at app/page.tsx:75-78 is scheduled, so the announcement stops for good without a success. The model has only ok and not-ok outcomes, and a not-ok outcome always retries. A rejected `fetch` in `sendMessage` (app/page.tsx:54) or in the count fetch (app/page.tsx:70-72) behaves like the model's not-ok outcome and `None`.
- ChatSession.SendEnterRoomMessage: a finite list of submission outcomes stands for the unbounded retry. If the list contains no success, the retry is left due (`joinPending`) instead of running forever.
- TextFormat.Lower: `toLowerCase` and `toUpperCase` are modelled for ASCII letters only, and other characters are left unchanged. Full Unicode case mapping can change the length of a string, so the length and idempotence results hold for this ASCII mapping.
- SocketApi.Step: the counter is an unbounded integer. JavaScript numbers are doubles, and exactness past 2^53 is not modelled.
