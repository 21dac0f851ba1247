/**
  The server side of the chat: the Socket.IO endpoint at /api/socket.

  A module-level counter `userCount` starts at zero. The first HTTP request
  to the endpoint attaches one Socket.IO server to the HTTP server and
  registers the connection handler on it; later requests find the server
  attached and do nothing but end the response. Each accepted connection
  increments the counter and broadcasts `userConnect` with the new value, and
  arms a per-socket `disconnect` handler that decrements the counter and
  broadcasts `userDisconnect`.

  `Step` is the specification of one event, `Run` of a trace of events, and
  `PresenceServer` is the imperative object whose methods are proved to
  perform exactly `Step`.
*/
module SocketApi {

  /** Identity of one connected socket, as the transport assigns it. */
  type SocketId = nat

  /** Events broadcast to every connected client; the payload is the new count. */
  datatype Broadcast = UserConnect(count: int) | UserDisconnect(count: int)

  /** What the environment delivers to the server, one atomic handler run each. */
  datatype Input =
    | Request                         // an HTTP request reaches /api/socket
    | Connection                      // a client completes the Socket.IO handshake
    | Disconnection(socket: SocketId) // the transport reports that a socket went away

  /** What one handler run does towards the outside world. */
  datatype Output =
    | ResponseEnded                   // `res.end()` was called
    | Emitted(event: Broadcast)       // `io.emit(...)` was called
    | Ignored                         // no handler is registered for the input

  /**
    The server's whole state: the counter, whether `res.socket.server.io` is
    set, how many Socket.IO servers were ever constructed, the sockets whose
    `disconnect` handler is armed, and the next socket id the transport hands out.
  */
  datatype Registry = Registry(
    userCount: int,
    attached: bool,
    servers: nat,
    open: set<SocketId>,
    nextId: SocketId)

  datatype Transition = Transition(next: Registry, out: Output)

  datatype RunResult = RunResult(final: Registry, outs: seq<Output>)

  /** The state when the module is loaded: `let userCount = 0`, nothing attached. */
  const Initial := Registry(0, false, 0, {}, 0)

  /**
    The invariant of the registry: the counter is the number of sockets whose
    disconnect handler is armed, every such socket was handed out already, and
    a Socket.IO server exists exactly when one is attached, and then only one.
  */
  ghost predicate Valid(r: Registry) {
    && r.userCount == |r.open|
    && (forall id :: id in r.open ==> id < r.nextId)
    && r.servers == (if r.attached then 1 else 0)
  }

  /** One handler run. */
  function Step(r: Registry, i: Input): (t: Transition)
    // the counter changes only in the connection and disconnection handlers
    ensures t.next.userCount != r.userCount ==> i.Connection? || i.Disconnection?
    // a request always ends its response, leaves the server attached, and
    // replaces nothing when a server was attached already
    ensures i.Request? ==> t.out == ResponseEnded && t.next.attached && t.next.userCount == r.userCount
    ensures i.Request? && r.attached ==> t.next == r
    // an accepted connection raises the counter by one and broadcasts the new value
    ensures i.Connection? && r.attached ==>
      && t.next.userCount == r.userCount + 1
      && t.out == Emitted(UserConnect(t.next.userCount))
      && r.nextId in t.next.open
    // a counted socket's disconnection lowers the counter by one and broadcasts the new value
    ensures i.Disconnection? && i.socket in r.open ==>
      && t.next.userCount == r.userCount - 1
      && t.out == Emitted(UserDisconnect(t.next.userCount))
    // after its disconnection a socket is no longer counted, so a repeat is ignored
    ensures i.Disconnection? ==> i.socket !in t.next.open
    // a connection before any server is attached, and the disconnection of a
    // socket that is not counted, reach no handler: they change nothing
    ensures i.Connection? && !r.attached ==> t == Transition(r, Ignored)
    ensures i.Disconnection? && i.socket !in r.open ==> t == Transition(r, Ignored)
    ensures t.out == Ignored ==> t.next == r
    // every other counted socket stays counted: a request arms nothing, a
    // connection adds exactly the new socket, a disconnection removes exactly its own
    ensures i.Request? ==> t.next.open == r.open && t.next.nextId == r.nextId
    ensures i.Connection? && r.attached ==> t.next.open == r.open + {r.nextId} && t.next.nextId == r.nextId + 1
    ensures i.Disconnection? && i.socket in r.open ==> t.next.open == r.open - {i.socket} && t.next.nextId == r.nextId
    ensures Valid(r) ==> Valid(t.next)
  {
    match i
    case Request =>
      if r.attached then Transition(r, ResponseEnded)
      else Transition(r.(attached := true, servers := r.servers + 1), ResponseEnded)
    case Connection =>
      if !r.attached then Transition(r, Ignored)
      else
        var n := r.userCount + 1;
        Transition(r.(userCount := n, open := r.open + {r.nextId}, nextId := r.nextId + 1),
                   Emitted(UserConnect(n)))
    case Disconnection(id) =>
      if id !in r.open then Transition(r, Ignored)
      else
        var n := r.userCount - 1;
        Transition(r.(userCount := n, open := r.open - {id}), Emitted(UserDisconnect(n)))
  }

  /** A trace of handler runs, one after the other. */
  function Run(r: Registry, inputs: seq<Input>): (res: RunResult)
    ensures |res.outs| == |inputs|
    decreases |inputs|
  {
    if inputs == [] then RunResult(r, [])
    else
      var t := Step(r, inputs[0]);
      var rest := Run(t.next, inputs[1..]);
      RunResult(rest.final, [t.out] + rest.outs)
  }

  /** The number of `userConnect` broadcasts among `outs`. */
  function Connects(outs: seq<Output>): nat {
    if outs == [] then 0
    else (if outs[0].Emitted? && outs[0].event.UserConnect? then 1 else 0) + Connects(outs[1..])
  }

  /** The number of `userDisconnect` broadcasts among `outs`. */
  function Disconnects(outs: seq<Output>): nat {
    if outs == [] then 0
    else (if outs[0].Emitted? && outs[0].event.UserDisconnect? then 1 else 0) + Disconnects(outs[1..])
  }

  /** Every trace keeps the invariant, so the counter is never negative. */
  lemma {:induction false} RunKeepsValid(r: Registry, inputs: seq<Input>)
    requires Valid(r)
    ensures Valid(Run(r, inputs).final)
    ensures Run(r, inputs).final.userCount >= 0
    ensures Run(r, inputs).final.servers <= 1
    decreases |inputs|
  {
    if inputs != [] {
      RunKeepsValid(Step(r, inputs[0]).next, inputs[1..]);
    }
  }

  /** After any trace the counter has moved by the connects minus the disconnects it broadcast. */
  lemma {:induction false} CountIsConnectsMinusDisconnects(r: Registry, inputs: seq<Input>)
    ensures Run(r, inputs).final.userCount
         == r.userCount + Connects(Run(r, inputs).outs) - Disconnects(Run(r, inputs).outs)
    decreases |inputs|
  {
    if inputs != [] {
      var t := Step(r, inputs[0]);
      CountIsConnectsMinusDisconnects(t.next, inputs[1..]);
      assert Run(r, inputs).outs[1..] == Run(t.next, inputs[1..]).outs;
    }
  }

  /** From server start: the counter is connects minus disconnects and equals the open sockets. */
  lemma PresenceFromStart(inputs: seq<Input>)
    ensures Run(Initial, inputs).final.userCount
         == Connects(Run(Initial, inputs).outs) - Disconnects(Run(Initial, inputs).outs)
    ensures Run(Initial, inputs).final.userCount == |Run(Initial, inputs).final.open| >= 0
  {
    CountIsConnectsMinusDisconnects(Initial, inputs);
    RunKeepsValid(Initial, inputs);
  }

  /** Every request in a trace ends its response, whatever came before it. */
  lemma {:induction false} EveryRequestEnded(r: Registry, inputs: seq<Input>, k: nat)
    requires k < |inputs| && inputs[k] == Request
    ensures Run(r, inputs).outs[k] == ResponseEnded
    decreases k
  {
    if k > 0 {
      var t := Step(r, inputs[0]);
      EveryRequestEnded(t.next, inputs[1..], k - 1);
      assert Run(r, inputs).outs[k] == Run(t.next, inputs[1..]).outs[k - 1];
    }
  }

  /** Once a server is attached, no later trace detaches, recreates or replaces it. */
  lemma {:induction false} AttachedStays(r: Registry, inputs: seq<Input>)
    requires r.attached
    ensures Run(r, inputs).final.attached
    ensures Run(r, inputs).final.servers == r.servers
    decreases |inputs|
  {
    if inputs != [] {
      AttachedStays(Step(r, inputs[0]).next, inputs[1..]);
    }
  }

  /**
    Two clients join and one leaves: the broadcasts carry 1, 2 and then 1,
    and a second disconnection of the same socket is ignored.
  */
  lemma TwoClientsScenario()
    ensures Run(Initial, [Request, Connection, Connection, Disconnection(1), Disconnection(1)]).outs
         == [ResponseEnded, Emitted(UserConnect(1)), Emitted(UserConnect(2)), Emitted(UserDisconnect(1)), Ignored]
  {
  }

  /**
    The server process. The fields are the module-level counter, the
    `res.socket.server.io` slot, and the transport's bookkeeping of sockets
    whose `disconnect` handler is armed.
  */
  class PresenceServer {
    var userCount: int
    var attached: bool
    var servers: nat
    var open: set<SocketId>
    var nextId: SocketId

    function State(): Registry
      reads this
    {
      Registry(userCount, attached, servers, open, nextId)
    }

    /** Module load. */
    constructor ()
      ensures State() == Initial
    {
      userCount, attached, servers, open, nextId := 0, false, 0, {}, 0;
    }

    /** The default export: attach the Socket.IO server at most once, then end the response. */
    method HandleRequest() returns (out: Output)
      requires Valid(State())
      modifies this
      ensures Valid(State())
      ensures Transition(State(), out) == Step(old(State()), Request)
      ensures out == ResponseEnded && attached && servers == 1
      ensures old(attached) ==> State() == old(State())
    {
      if !attached {
        servers := servers + 1;
        attached := true;
      }
      out := ResponseEnded;
    }

    /** The `connection` handler: count the new socket and broadcast the new count. */
    method OnConnection() returns (out: Output)
      requires Valid(State())
      modifies this
      ensures Valid(State())
      ensures Transition(State(), out) == Step(old(State()), Connection)
      ensures old(attached) ==> userCount == old(userCount) + 1 && out == Emitted(UserConnect(userCount))
      ensures !old(attached) ==> out == Ignored && State() == old(State())
    {
      if !attached {
        out := Ignored;
        return;
      }
      userCount := userCount + 1;
      open := open + {nextId};
      nextId := nextId + 1;
      out := Emitted(UserConnect(userCount));
    }

    /** The per-socket `disconnect` handler, armed only for sockets counted on connection. */
    method OnDisconnect(id: SocketId) returns (out: Output)
      requires Valid(State())
      modifies this
      ensures Valid(State())
      ensures Transition(State(), out) == Step(old(State()), Disconnection(id))
      ensures id in old(open) ==> userCount == old(userCount) - 1 && out == Emitted(UserDisconnect(userCount))
      ensures id !in old(open) ==> out == Ignored && State() == old(State())
      ensures userCount >= 0
    {
      if id !in open {
        out := Ignored;
        return;
      }
      userCount := userCount - 1;
      open := open - {id};
      out := Emitted(UserDisconnect(userCount));
    }
  }
}
