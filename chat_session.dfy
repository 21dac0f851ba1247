/**
  The client side of the chat: the state of one page session and the
  handlers that change it.

  The session holds the `connected` flag, the displayed user count, the
  chosen name, the text in the message box and the transcript. Socket
  events set the flag, append to the transcript and overwrite the count.
  Ordinary messages and the join announcement go out through the
  `/api/chat` request path; the announcement is re-sent until one
  submission succeeds and is then followed by one fetch of the count.

  Requests are not performed here: the outcome of every submission is an
  input (`true` for a response with `ok` set), and so is the outcome of the
  count fetch (`None` for a response without `ok`). `posted` records every
  message submitted to `/api/chat`, in order, and `countFetches` the number
  of requests to `/api/userCount`.

  `Step` is the specification of one handler run, `Announce` of the join
  retry, `Run` of a trace, and `SessionClient` is the imperative object
  whose handler methods perform `Step` and whose retry loop performs `Announce`.
*/
module ChatSession {
  import opened Wrappers
  import opened ChatMessages

  /** Which screen the page renders. */
  datatype View = Loading | NameEntry | Chat

  datatype Session = Session(
    connected: bool,
    userCount: int,
    userName: string,
    messageInput: string,
    chatMessages: seq<ChatMessage>,
    posted: seq<ChatMessage>,
    countFetches: nat,
    joinPending: bool)   // an announcement failed and its retry is still due

  /** The state right after the page mounts. */
  const Initial := Session(false, 0, "", "", [], [], 0, false)

  /** What the environment delivers to the page, one atomic handler run each. */
  datatype Input =
    | SocketConnect
    | SocketMessage(entry: ChatMessage)
    | SocketUserConnect(count: int)
    | SocketUserDisconnect(count: int)
    | EditMessage(text: string)
    | Send(ok: bool)
    | EnterName(name: string, chatResponses: seq<bool>, countResponse: Option<int>)

  /** The gating of the page: loading until connected, then name entry until a name is set. */
  function ViewOf(s: Session): (v: View)
    ensures v == Chat <==> s.connected && s.userName != ""
    ensures v == NameEntry <==> s.connected && s.userName == ""
  {
    if !s.connected then Loading
    else if s.userName == "" then NameEntry
    else Chat
  }

  /** The join announcement: always from `Moderator`, naming the new user. */
  function Announcement(name: string): ChatMessage
  {
    ChatMessage("Moderator", name + " has entered the chat")
  }

  /** The number of submissions the join retry makes: up to and including the first success. */
  function Attempts(responses: seq<bool>): (n: nat)
    ensures n <= |responses|
    ensures true in responses ==> n > 0 && responses[n - 1] && forall j :: 0 <= j < n - 1 ==> !responses[j]
    ensures true !in responses ==> n == |responses|
  {
    if responses == [] then 0
    else if responses[0] then 1
    else
      assert responses == [responses[0]] + responses[1..];
      1 + Attempts(responses[1..])
  }

  function Repeat(m: ChatMessage, n: nat): (r: seq<ChatMessage>)
    ensures |r| == n && forall j :: 0 <= j < n ==> r[j] == m
  {
    if n == 0 then [] else [m] + Repeat(m, n - 1)
  }

  function Failures(k: nat): (r: seq<bool>)
    ensures |r| == k && true !in r
  {
    if k == 0 then [] else [false] + Failures(k - 1)
  }

  /**
    The join retry: submit the announcement; on failure submit it again,
    on success fetch the count once and take it if the fetch succeeded.
    Running out of recorded outcomes leaves the retry pending.
  */
  function Announce(s: Session, responses: seq<bool>, countResponse: Option<int>): (t: Session)
    // submissions are only ever appended, one at least per recorded outcome
    ensures |t.posted| >= |s.posted| && t.posted[..|s.posted|] == s.posted
    ensures responses != [] ==> |t.posted| > |s.posted|
    // the retry touches neither the connection, the name, the box nor the transcript
    ensures t.connected == s.connected && t.userName == s.userName
    ensures t.messageInput == s.messageInput && t.chatMessages == s.chatMessages
    // the displayed count changes only to the value an ok count fetch returned
    ensures t.userCount != s.userCount ==> countResponse.Some? && t.userCount == countResponse.value
    decreases |responses|
  {
    if responses == [] then s.(joinPending := true)
    else
      var s1 := s.(posted := s.posted + [Announcement(s.userName)]);
      if responses[0] then
        s1.(joinPending := false,
            countFetches := s1.countFetches + 1,
            userCount := if countResponse.Some? then countResponse.value else s1.userCount)
      else Announce(s1, responses[1..], countResponse)
  }

  /** One handler run. */
  function Step(s: Session, i: Input): (t: Session)
    // once connected a session stays connected; only `connect` connects it
    ensures s.connected ==> t.connected
    ensures t.connected && !s.connected ==> i.SocketConnect?
    // only a `message` event touches the transcript
    ensures t.chatMessages != s.chatMessages ==> i.SocketMessage?
    // the name is set once, from the name screen
    ensures t.userName != s.userName ==> i.EnterName? && ViewOf(s) == NameEntry && t.userName == i.name != ""
    // submissions are only appended, by sending or by entering a name, and only when connected
    ensures |t.posted| >= |s.posted| && t.posted[..|s.posted|] == s.posted
    ensures t.posted != s.posted ==> (i.Send? || i.EnterName?) && s.connected
    // the count changes only on a count event or through the join's count fetch
    ensures t.userCount != s.userCount ==>
      i.SocketUserConnect? || i.SocketUserDisconnect? || (i.EnterName? && i.countResponse.Some?)
    // only the join fetches the count or leaves a retry due
    ensures t.countFetches != s.countFetches || t.joinPending != s.joinPending ==> i.EnterName?
    // the box changes only by typing into it or by an ok send, which clears it
    ensures t.messageInput != s.messageInput ==>
      (i.EditMessage? && t.messageInput == i.text) || (i.Send? && i.ok && t.messageInput == "")
  {
    match i
    case SocketConnect => s.(connected := true)
    case SocketMessage(m) => s.(chatMessages := s.chatMessages + [m])
    case SocketUserConnect(c) => s.(userCount := c)
    case SocketUserDisconnect(c) => s.(userCount := c)
    case EditMessage(text) =>
      if ViewOf(s) == Chat then s.(messageInput := text) else s
    case Send(ok) =>
      if ViewOf(s) == Chat && s.messageInput != "" then
        s.(posted := s.posted + [ChatMessage(s.userName, s.messageInput)],
           messageInput := if ok then "" else s.messageInput)
      else s
    case EnterName(name, responses, countResponse) =>
      if ViewOf(s) == NameEntry && name != "" then Announce(s.(userName := name), responses, countResponse)
      else s
  }

  /** A trace of handler runs, one after the other. */
  function Run(s: Session, inputs: seq<Input>): Session
    decreases |inputs|
  {
    if inputs == [] then s else Run(Step(s, inputs[0]), inputs[1..])
  }

  /** The message payloads a trace delivers over the socket, in order. */
  function Received(inputs: seq<Input>): seq<ChatMessage> {
    if inputs == [] then []
    else (if inputs[0].SocketMessage? then [inputs[0].entry] else []) + Received(inputs[1..])
  }

  /**
    What every reachable session satisfies: a name is chosen only once
    connected, nothing is submitted and no retry is due before a name is
    chosen, and every submission is either the announcement of that name or
    a non-empty message sent under that name.
  */
  ghost predicate Valid(s: Session) {
    && (s.userName != "" ==> s.connected)
    && (s.posted != [] || s.joinPending || s.countFetches > 0 ==> s.userName != "")
    && forall m :: m in s.posted ==>
         m == Announcement(s.userName) || (m.userName == s.userName && m.message != "")
  }

  // The join retry

  /** The retry submits the identical announcement once per attempt and changes nothing else it should not. */
  lemma {:induction false} AnnounceEffect(s: Session, responses: seq<bool>, countResponse: Option<int>)
    ensures Announce(s, responses, countResponse).posted
         == s.posted + Repeat(Announcement(s.userName), Attempts(responses))
    ensures Announce(s, responses, countResponse).countFetches
         == s.countFetches + (if true in responses then 1 else 0)
    ensures Announce(s, responses, countResponse).joinPending == (true !in responses)
    ensures Announce(s, responses, countResponse).userCount
         == if true in responses && countResponse.Some? then countResponse.value else s.userCount
    ensures Announce(s, responses, countResponse)
         == s.(posted := Announce(s, responses, countResponse).posted,
               countFetches := Announce(s, responses, countResponse).countFetches,
               joinPending := Announce(s, responses, countResponse).joinPending,
               userCount := Announce(s, responses, countResponse).userCount)
    decreases |responses|
  {
    if responses != [] && !responses[0] {
      var s1 := s.(posted := s.posted + [Announcement(s.userName)]);
      AnnounceEffect(s1, responses[1..], countResponse);
      assert responses == [false] + responses[1..];
      assert true in responses <==> true in responses[1..];
      assert Repeat(Announcement(s.userName), Attempts(responses))
          == [Announcement(s.userName)] + Repeat(Announcement(s.userName), Attempts(responses[1..]));
    }
  }

  /**
    Given k failed submissions and then a success, exactly k + 1 identical
    announcements are submitted, the count is fetched once, and the count is
    taken only from a successful fetch.
  */
  lemma JoinRetry(s: Session, k: nat, later: seq<bool>, countResponse: Option<int>)
    ensures var t := Announce(s, Failures(k) + [true] + later, countResponse);
      && t.posted == s.posted + Repeat(Announcement(s.userName), k + 1)
      && t.countFetches == s.countFetches + 1
      && t.userCount == (if countResponse.Some? then countResponse.value else s.userCount)
      && !t.joinPending
      && t.chatMessages == s.chatMessages && t.messageInput == s.messageInput
  {
    var rs := Failures(k) + [true] + later;
    assert rs[k] && true in rs;
    AnnounceEffect(s, rs, countResponse);
  }

  /** While every submission fails the retry stays due and nothing is fetched. */
  lemma JoinStillRetrying(s: Session, k: nat, countResponse: Option<int>)
    ensures var t := Announce(s, Failures(k), countResponse);
      && t.posted == s.posted + Repeat(Announcement(s.userName), k)
      && t.countFetches == s.countFetches
      && t.userCount == s.userCount
      && t.joinPending
  {
    AnnounceEffect(s, Failures(k), countResponse);
  }

  // One handler run

  /** A socket message is appended at the end; earlier entries stay, in order. */
  lemma MessageAppends(s: Session, m: ChatMessage)
    ensures var t := Step(s, SocketMessage(m));
      && |t.chatMessages| == |s.chatMessages| + 1
      && t.chatMessages[..|s.chatMessages|] == s.chatMessages
      && t.chatMessages[|s.chatMessages|] == m
  {
    assert Step(s, SocketMessage(m)).chatMessages[..|s.chatMessages|] == s.chatMessages;
  }

  /**
    Count broadcasts overwrite the displayed count with the received value,
    whatever it was before; `connect` sets the flag.
  */
  lemma CountOverwrites(s: Session, c: int)
    ensures Step(s, SocketUserConnect(c)) == s.(userCount := c)
    ensures Step(s, SocketUserDisconnect(c)) == s.(userCount := c)
    ensures Step(s, SocketConnect) == s.(connected := true)
  {
  }

  /**
    Sending: an empty box sends nothing and changes nothing; otherwise, on the
    chat screen, exactly `{userName, message}` is submitted and the box is
    cleared if and only if the response is ok.
  */
  lemma SendMessageEffect(s: Session, ok: bool)
    ensures s.messageInput == "" ==> Step(s, Send(ok)) == s
    ensures ViewOf(s) == Chat && s.messageInput != "" ==>
      && Step(s, Send(ok)).posted == s.posted + [ChatMessage(s.userName, s.messageInput)]
      && (Step(s, Send(ok)).messageInput == "" <==> ok)
      && (!ok ==> Step(s, Send(ok)).messageInput == s.messageInput)
    ensures Step(s, Send(ok)).posted != s.posted ==> s.connected && s.userName != "" && s.messageInput != ""
    // a send touches only the submissions and the box
    ensures Step(s, Send(ok)) == s.(posted := Step(s, Send(ok)).posted, messageInput := Step(s, Send(ok)).messageInput)
  {
  }

  /** The announcement goes out only when a non-empty name is entered on the name screen. */
  lemma EnterNameEffect(s: Session, name: string, responses: seq<bool>, countResponse: Option<int>)
    ensures var t := Step(s, EnterName(name, responses, countResponse));
      t.posted != s.posted ==> ViewOf(s) == NameEntry && name != "" && t.userName == name
    ensures var t := Step(s, EnterName(name, responses, countResponse));
      ViewOf(s) == NameEntry && name != "" && responses != [] ==>
        |t.posted| > |s.posted| && t.posted[|s.posted|] == ChatMessage("Moderator", name + " has entered the chat")
  {
    var t := Step(s, EnterName(name, responses, countResponse));
    if ViewOf(s) == NameEntry && name != "" {
      AnnounceEffect(s.(userName := name), responses, countResponse);
      if responses != [] {
        assert responses[0] in responses;
        assert Attempts(responses) > 0 by {
          if true !in responses { assert Attempts(responses) == |responses|; }
        }
      }
    }
  }

  // Traces

  lemma StepKeepsValid(s: Session, i: Input)
    requires Valid(s)
    ensures Valid(Step(s, i))
    ensures s.userName != "" ==> Step(s, i).userName == s.userName
  {
    match i
    case EnterName(name, responses, countResponse) =>
      if ViewOf(s) == NameEntry && name != "" {
        var s1 := s.(userName := name);
        AnnounceEffect(s1, responses, countResponse);
        var t := Step(s, i);
        forall m | m in t.posted
          ensures m == Announcement(t.userName) || (m.userName == t.userName && m.message != "")
        {
          var j :| 0 <= j < |t.posted| && t.posted[j] == m;
          assert s.posted == [];
          assert t.posted[j] == Repeat(Announcement(name), Attempts(responses))[j - |s.posted|];
        }
      }
    case Send(ok) =>
      var t := Step(s, i);
      forall m | m in t.posted
        ensures m == Announcement(t.userName) || (m.userName == t.userName && m.message != "")
      {
        if m !in s.posted { assert m == ChatMessage(s.userName, s.messageInput); }
      }
    case _ =>
  }

  /** Every trace keeps the invariant, and a chosen name never changes. */
  lemma {:induction false} RunKeepsValid(s: Session, inputs: seq<Input>)
    requires Valid(s)
    ensures Valid(Run(s, inputs))
    ensures s.userName != "" ==> Run(s, inputs).userName == s.userName
    decreases |inputs|
  {
    if inputs != [] {
      StepKeepsValid(s, inputs[0]);
      RunKeepsValid(Step(s, inputs[0]), inputs[1..]);
    }
  }

  /** The transcript is the old one followed by exactly the received messages, in arrival order. */
  lemma {:induction false} TranscriptIsReceived(s: Session, inputs: seq<Input>)
    ensures Run(s, inputs).chatMessages == s.chatMessages + Received(inputs)
    decreases |inputs|
  {
    if inputs != [] {
      TranscriptIsReceived(Step(s, inputs[0]), inputs[1..]);
      match inputs[0]
      case SocketMessage(m) =>
        assert s.chatMessages + [m] + Received(inputs[1..]) == s.chatMessages + Received(inputs);
      case EnterName(name, responses, countResponse) =>
        if ViewOf(s) == NameEntry && name != "" {
          AnnounceEffect(s.(userName := name), responses, countResponse);
        }
      case _ =>
    }
  }

  /**
    From page mount: nothing is ever submitted before the session is
    connected and named, and every submission carries that name, either as
    its announcement or as the sender of a non-empty message.
  */
  lemma NothingSentBeforeNamed(inputs: seq<Input>)
    ensures var t := Run(Initial, inputs);
      && (t.posted != [] ==> t.connected && t.userName != "" && ViewOf(t) == Chat)
      && forall m :: m in t.posted ==>
           m == Announcement(t.userName) || (m.userName == t.userName && m.message != "")
  {
    RunKeepsValid(Initial, inputs);
  }

  /**
    The page component. The fields are the React state of the session, plus
    the record of requests it made.
  */
  class SessionClient {
    var connected: bool
    var userCount: int
    var userName: string
    var messageInput: string
    var chatMessages: seq<ChatMessage>
    var posted: seq<ChatMessage>
    var countFetches: nat
    var joinPending: bool

    function State(): Session
      reads this
    {
      Session(connected, userCount, userName, messageInput, chatMessages, posted, countFetches, joinPending)
    }

    function View(): View
      reads this
    {
      ViewOf(State())
    }

    /** Mount: every `useState` at its initial value. */
    constructor ()
      ensures State() == Initial
    {
      connected, userCount, userName, messageInput := false, 0, "", "";
      chatMessages, posted, countFetches, joinPending := [], [], 0, false;
    }

    /** The socket's `connect` handler. */
    method OnConnect()
      modifies this
      ensures State() == Step(old(State()), SocketConnect)
      ensures connected
    {
      connected := true;
    }

    /** The socket's `message` handler: push onto the transcript. */
    method OnMessage(m: ChatMessage)
      modifies this
      ensures State() == Step(old(State()), SocketMessage(m))
      ensures chatMessages == old(chatMessages) + [m]
    {
      chatMessages := chatMessages + [m];
    }

    /** The socket's `userConnect` handler. */
    method OnUserConnect(count: int)
      modifies this
      ensures State() == Step(old(State()), SocketUserConnect(count))
      ensures userCount == count
    {
      userCount := count;
    }

    /** The socket's `userDisconnect` handler. */
    method OnUserDisconnect(count: int)
      modifies this
      ensures State() == Step(old(State()), SocketUserDisconnect(count))
      ensures userCount == count
    {
      userCount := count;
    }

    /** Typing into the message box, which exists only on the chat screen. */
    method EditMessage(text: string)
      modifies this
      ensures State() == Step(old(State()), Input.EditMessage(text))
    {
      if View() == Chat {
        messageInput := text;
      }
    }

    /**
      `sendMessage`, reached from the chat screen's box and button: submit a
      non-empty box under the session's name; clear the box on an ok response.
    */
    method SendMessage(ok: bool) returns (sent: Option<ChatMessage>)
      modifies this
      ensures State() == Step(old(State()), Send(ok))
      ensures sent.Some? <==> old(View()) == Chat && old(messageInput) != ""
      ensures sent.Some? ==>
        sent.value == ChatMessage(userName, old(messageInput)) && posted == old(posted) + [sent.value]
    {
      sent := None;
      if View() == Chat && messageInput != "" {
        var m := ChatMessage(userName, messageInput);
        posted := posted + [m];
        if ok {
          messageInput := "";
        }
        sent := Some(m);
      }
    }

    /**
      `sendEnterRoomMessage`: submit the announcement once per recorded
      outcome until one succeeds, then fetch the count once.
    */
    method SendEnterRoomMessage(chatResponses: seq<bool>, countResponse: Option<int>) returns (attempts: nat)
      requires userName != ""
      modifies this
      ensures State() == Announce(old(State()), chatResponses, countResponse)
      ensures attempts == Attempts(chatResponses)
      ensures posted == old(posted) + Repeat(Announcement(userName), attempts)
      ensures countFetches == old(countFetches) + (if true in chatResponses then 1 else 0)
      ensures joinPending <==> true !in chatResponses
    {
      ghost var goal := Announce(State(), chatResponses, countResponse);
      var i := 0;
      // every failed submission re-sends the identical announcement
      while i < |chatResponses| && !chatResponses[i]
        invariant 0 <= i <= |chatResponses|
        invariant Announce(State(), chatResponses[i..], countResponse) == goal
        invariant i + Attempts(chatResponses[i..]) == Attempts(chatResponses)
      {
        assert chatResponses[i..][1..] == chatResponses[i + 1..];
        posted := posted + [Announcement(userName)];
        i := i + 1;
      }
      if i < |chatResponses| {
        // the first successful submission, then the one-shot count fetch
        posted := posted + [Announcement(userName)];
        countFetches := countFetches + 1;
        if countResponse.Some? {
          userCount := countResponse.value;
        }
        joinPending := false;
        attempts := i + 1;
      } else {
        joinPending := true;
        attempts := i;
      }
      AnnounceEffect(old(State()), chatResponses, countResponse);
    }

    /**
      Entering a name on the name screen: `setUserName`, whose effect sends
      the announcement when the name is non-empty.
    */
    method EnterName(name: string, chatResponses: seq<bool>, countResponse: Option<int>)
      modifies this
      ensures State() == Step(old(State()), Input.EnterName(name, chatResponses, countResponse))
    {
      if View() == NameEntry && name != "" {
        userName := name;
        var _ := SendEnterRoomMessage(chatResponses, countResponse);
      }
    }
  }
}
