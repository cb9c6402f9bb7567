/**
 * The websocket signaling relay of backend/routers/call.py: the registry
 * `connected_users`, which maps a user id to its socket, and the handler
 * `websocket_endpoint`, of which one runs per accepted socket.
 *
 * The functions below specify the relay on values; class `Server` keeps the
 * same state in fields and updates it in place, one event at a time.
 */
module CallRouter {
  import opened Options

  type UserId = string

  /** `retry_attempts` in `websocket_endpoint`. */
  const RetryAttempts: nat := 3

  /** Whether each call to `websocket.accept()` returns (true) or raises (false). */
  type Attempts = a: seq<bool> | |a| == RetryAttempts witness [false, false, false]

  /** An accepted websocket, as an opaque handle. */
  datatype Socket = Socket(handle: nat)

  /** A value as `json.loads` returns it; numbers are integers in this model. */
  datatype Json =
    | JNull
    | JBool(b: bool)
    | JNum(n: int)
    | JStr(s: string)
    | JArr(items: seq<Json>)
    | JObj(fields: map<string, Json>)

  /** One text frame from `receive_text()`, after `json.loads`. */
  datatype Received = Parsed(value: Json) | Unparsable

  /** A dictionary the relay passes to `json.dumps` and `send_text`. */
  datatype Reply =
    | Forward(from: UserId, data: Json, callType: Json)
    | NotConnected(error: string)

  /** A text frame the relay sent, and the socket it went to. */
  datatype Frame = Frame(dest: Socket, body: Reply)

  /** A received frame, and whether the `send_text` that answers it completes. */
  datatype Delivery = Delivery(msg: Received, sent: bool)

  /** `dict.get(key)`: the value, or None when the key is absent. */
  function Get(fields: map<string, Json>, key: string): Json
  {
    if key in fields then fields[key] else JNull
  }

  /** A list or a dictionary used as a dict key makes Python raise TypeError. */
  predicate Hashable(j: Json)
  {
    !j.JArr? && !j.JObj?
  }

  /** The loop body reaches its `send_text` call: the text parsed to an object whose `to` can be looked up. */
  predicate Routable(msg: Received)
  {
    msg.Parsed? && msg.value.JObj? && Hashable(Get(msg.value.fields, "to"))
  }

  /** A routable message whose `to` is a registered user id. */
  predicate Addressed(users: map<UserId, Socket>, msg: Received)
  {
    Routable(msg) && Get(msg.value.fields, "to").JStr? && Get(msg.value.fields, "to").s in users
  }

  function DigitChar(d: nat): char
    requires d < 10
  {
    "0123456789"[d]
  }

  function Digits(n: nat): string
  {
    if n < 10 then [DigitChar(n)] else Digits(n / 10) + [DigitChar(n % 10)]
  }

  /** `str()` of a Python int. */
  function Decimal(n: int): string
  {
    if n < 0 then "-" + Digits(-n) else Digits(n)
  }

  /** `str()` of a hashable JSON value, as the f-string of the error reply renders it. */
  function PyStr(j: Json): string
    requires Hashable(j)
  {
    match j
    case JNull => "None"
    case JBool(b) => if b then "True" else "False"
    case JNum(n) => Decimal(n)
    case JStr(s) => s
  }

  /** The frames one turn of the relay loop sends, and whether the loop ends. */
  datatype Outcome = Outcome(frames: seq<Frame>, stop: bool)

  /**
   * One turn of the `while True` loop of the handler that serves `self` on
   * `socket`: parse the text, look up `to`, and send one frame, to the target
   * or back to the sender. Any exception (bad JSON, a non-object, an
   * unhashable `to`, a `send_text` that raises) breaks the loop.
   */
  function Relay(users: map<UserId, Socket>, self: UserId, socket: Socket, msg: Received, sent: bool): (o: Outcome)
    ensures o.stop <==> o.frames == []
    ensures o.stop <==> !(Routable(msg) && sent)
    ensures |o.frames| <= 1
    ensures Addressed(users, msg) && sent ==>
              var m := msg.value.fields;
              o.frames == [Frame(users[Get(m, "to").s], Forward(self, Get(m, "data"), Get(m, "call_type")))]
    ensures Routable(msg) && !Addressed(users, msg) && sent ==>
              o.frames == [Frame(socket, NotConnected("User " + PyStr(Get(msg.value.fields, "to")) + " not connected"))]
  {
    match msg
    case Unparsable => Outcome([], true)
    case Parsed(j) =>
      if !j.JObj? then Outcome([], true)
      else
        var to := Get(j.fields, "to");
        if !Hashable(to) || !sent then Outcome([], true)
        else if to.JStr? && to.s in users then
          Outcome([Frame(users[to.s], Forward(self, Get(j.fields, "data"), Get(j.fields, "call_type")))], false)
        else
          Outcome([Frame(socket, NotConnected("User " + PyStr(to) + " not connected"))], false)
  }

  /**
   * The relay reads only `to`, `data` and `call_type`: a `from` the sender
   * puts in the message, or any other field, changes nothing it sends.
   */
  lemma RelayReadsOnlyRoutingFields(users: map<UserId, Socket>, self: UserId, socket: Socket,
                                    m: map<string, Json>, key: string, v: Json, sent: bool)
    requires key != "to" && key != "data" && key != "call_type"
    ensures Relay(users, self, socket, Parsed(JObj(m[key := v])), sent)
         == Relay(users, self, socket, Parsed(JObj(m - {key})), sent)
  {
  }

  /** The attempt, from `from` on, at which `accept()` first returns, if any. */
  function FirstAccepted(accepted: seq<bool>, from: nat): (r: Option<nat>)
    requires from <= |accepted|
    decreases |accepted| - from
    ensures r.Some? ==> from <= r.value < |accepted| && accepted[r.value]
    ensures r.Some? ==> forall j :: from <= j < r.value ==> !accepted[j]
    ensures r.None? <==> forall j :: from <= j < |accepted| ==> !accepted[j]
  {
    if from == |accepted| then None
    else if accepted[from] then Some(from)
    else FirstAccepted(accepted, from + 1)
  }

  /**
   * The whole relay: the registry `connected_users`, the handlers still in
   * their relay loop (each socket with the path `user_id` it was opened for),
   * every frame sent so far, and the next unused socket handle.
   */
  datatype RelayState = RelayState(users: map<UserId, Socket>, loops: map<Socket, UserId>,
                                   outbox: seq<Frame>, nextHandle: nat)

  const Initial := RelayState(map[], map[], [], 0)

  /** What can happen next: a new websocket for `/ws/{path}`, a text frame on a socket, or a socket going away. */
  datatype Event =
    | Open(path: UserId, accepted: Attempts)
    | Receive(socket: Socket, msg: Received, sent: bool)
    | Close(socket: Socket)

  /**
   * Every binding points to a socket whose handler is still relaying for that
   * same id, and every live socket handle has been handed out.
   */
  predicate Inv(s: RelayState)
  {
    && (forall u :: u in s.users ==> s.users[u] in s.loops && s.loops[s.users[u]] == u)
    && (forall c :: c in s.loops ==> c.handle < s.nextHandle)
  }

  /** The `finally` clause of the handler on `socket`: drop the binding of its path id, whatever socket it now names. */
  function Finish(s: RelayState, socket: Socket): (r: RelayState)
    requires socket in s.loops
    ensures s.loops[socket] !in r.users
    ensures forall u :: u in s.users && u != s.loops[socket] ==> u in r.users && r.users[u] == s.users[u]
    ensures r.users.Keys <= s.users.Keys
    ensures r.loops.Keys == s.loops.Keys - {socket} && r.outbox == s.outbox
  {
    s.(users := s.users - {s.loops[socket]}, loops := s.loops - {socket})
  }

  /** The effect of one event on the relay. */
  function Next(s: RelayState, e: Event): (r: RelayState)
    ensures Inv(s) ==> Inv(r)
    ensures s.outbox <= r.outbox && r.nextHandle >= s.nextHandle
    // Opening binds the path id to the new socket, replacing an earlier binding, or changes nothing when every accept fails.
    ensures e.Open? && FirstAccepted(e.accepted, 0).Some? ==>
              r.users == s.users[e.path := Socket(s.nextHandle)] && r.outbox == s.outbox
    ensures e.Open? && FirstAccepted(e.accepted, 0).None? ==>
              r.users == s.users && r.loops == s.loops && r.outbox == s.outbox
    // Relaying a message, delivered or refused, leaves the registry alone.
    ensures e.Receive? && e.socket in s.loops && Routable(e.msg) && e.sent ==>
              r.users == s.users && r.loops == s.loops && |r.outbox| == |s.outbox| + 1
    // Only a relay turn sends, its `from` is the handler's path id, and it goes to a socket that is still served.
    ensures forall i :: |s.outbox| <= i < |r.outbox| ==>
              e.Receive? && e.socket in s.loops &&
              (r.outbox[i].body.Forward? ==> r.outbox[i].body.from == s.loops[e.socket])
    ensures Inv(s) ==> forall i :: |s.outbox| <= i < |r.outbox| ==> r.outbox[i].dest in s.loops
  {
    match e
    case Open(path, accepted) =>
      var socket := Socket(s.nextHandle);
      var s1 := s.(nextHandle := s.nextHandle + 1);
      if FirstAccepted(accepted, 0).Some? then
        s1.(users := s.users[path := socket], loops := s.loops[socket := path])
      else
        s1
    case Receive(socket, msg, sent) =>
      if socket !in s.loops then s
      else
        var o := Relay(s.users, s.loops[socket], socket, msg, sent);
        var s1 := s.(outbox := s.outbox + o.frames);
        if o.stop then Finish(s1, socket) else s1
    case Close(socket) =>
      if socket in s.loops then Finish(s, socket) else s
  }

  function Replay(s: RelayState, events: seq<Event>): RelayState
    decreases |events|
  {
    if events == [] then s else Replay(Next(s, events[0]), events[1..])
  }

  /** Any run of events keeps the registry invariant and only appends to what was sent. */
  lemma {:induction false} ReplayKeepsInv(s: RelayState, events: seq<Event>)
    requires Inv(s)
    ensures Inv(Replay(s, events))
    ensures s.outbox <= Replay(s, events).outbox
    decreases |events|
  {
    if events != [] {
      ReplayKeepsInv(Next(s, events[0]), events[1..]);
    }
  }

  /**
   * When a user id reconnects, the old socket's handler still deletes the id
   * on exit: the newer socket stays served but can no longer be reached.
   */
  lemma StaleExitDropsNewerBinding(s: RelayState, stale: Socket)
    requires Inv(s) && stale in s.loops
    requires s.loops[stale] in s.users && s.users[s.loops[stale]] != stale
    ensures var r := Next(s, Close(stale));
            s.loops[stale] !in r.users && s.users[s.loops[stale]] in r.loops
  {
  }

  /** The same, from an empty relay: `soldier1` connects twice and the first socket closes. */
  lemma ReconnectThenStaleClose()
    ensures var r := Replay(Initial, [Open("soldier1", [true, true, true]),
                                     Open("soldier1", [false, true, true]),
                                     Close(Socket(0))]);
            "soldier1" !in r.users && Socket(1) in r.loops
  {
  }

  /**
   * The frames a handler sends for the text frames `inbox`, up to and
   * including the one that ends its loop; the registry it reads stays put
   * while no other handler runs.
   */
  function Conversation(users: map<UserId, Socket>, self: UserId, socket: Socket, inbox: seq<Delivery>): (frames: seq<Frame>)
    ensures |frames| <= |inbox|
    ensures forall f :: f in frames ==> f.dest == socket || f.dest in users.Values
    ensures forall f :: f in frames && f.body.Forward? ==> f.body.from == self
    decreases |inbox|
  {
    if inbox == [] then []
    else
      var o := Relay(users, self, socket, inbox[0].msg, inbox[0].sent);
      if o.stop then o.frames
      else
        assert o.frames[0].dest == socket || o.frames[0].dest in users.Values by {
          if Addressed(users, inbox[0].msg) {
            var to := Get(inbox[0].msg.value.fields, "to").s;
            assert users[to] in users.Values;
          }
        }
        o.frames + Conversation(users, self, socket, inbox[1..])
  }

  class Server {
    var users: map<UserId, Socket>
    var loops: map<Socket, UserId>
    var outbox: seq<Frame>
    var nextHandle: nat

    function State(): RelayState
      reads this
    {
      RelayState(users, loops, outbox, nextHandle)
    }

    predicate Valid()
      reads this
    {
      Inv(State())
    }

    constructor ()
      ensures Valid() && State() == Initial
    {
      users, loops, outbox, nextHandle := map[], map[], [], 0;
    }

    /** Lines 18-28: try `accept()` up to three times; on success bind `path` to the socket (last connection wins). */
    method Open(path: UserId, accepted: Attempts) returns (socket: Socket, ok: bool)
      requires Valid()
      modifies this
      ensures Valid() && State() == Next(old(State()), Event.Open(path, accepted))
      ensures socket == Socket(old(nextHandle)) && socket !in old(loops)
      ensures ok <==> FirstAccepted(accepted, 0).Some?
      ensures outbox == old(outbox) && nextHandle == old(nextHandle) + 1
      ensures ok ==> users == old(users)[path := socket] && loops == old(loops)[socket := path]
      ensures !ok ==> users == old(users) && loops == old(loops)
    {
      socket := Socket(nextHandle);
      nextHandle := nextHandle + 1;
      ok := false;
      for attempt := 0 to RetryAttempts
        invariant forall j :: 0 <= j < attempt ==> !accepted[j]
        invariant !ok && users == old(users) && loops == old(loops) && outbox == old(outbox)
      {
        if accepted[attempt] {
          users := users[path := socket];
          loops := loops[socket := path];
          ok := true;
          break;
        }
      }
    }

    /** Lines 58-60, for the handler on `socket`. */
    method Unregister(socket: Socket)
      requires Valid() && socket in loops
      modifies this
      ensures Valid() && State() == Finish(old(State()), socket)
      ensures users == old(users) - {old(loops)[socket]} && loops == old(loops) - {socket}
    {
      var path := loops[socket];
      if path in users {
        users := users - {path};
      }
      loops := loops - {socket};
    }

    /** One turn of the relay loop on `socket`; a turn that breaks the loop runs the `finally` clause as well. */
    method Receive(socket: Socket, msg: Received, sent: bool) returns (stop: bool)
      requires Valid()
      modifies this
      ensures Valid() && State() == Next(old(State()), Event.Receive(socket, msg, sent))
      ensures stop <==> socket !in old(loops) || Relay(old(users), old(loops)[socket], socket, msg, sent).stop
      ensures nextHandle == old(nextHandle)
      ensures socket in old(loops) ==>
                outbox == old(outbox) + Relay(old(users), old(loops)[socket], socket, msg, sent).frames
      ensures !stop ==> users == old(users) && loops == old(loops)
      ensures stop && socket in old(loops) ==>
                users == old(users) - {old(loops)[socket]} && loops == old(loops) - {socket}
    {
      if socket !in loops {
        return true;
      }
      var o := Relay(users, loops[socket], socket, msg, sent);
      outbox := outbox + o.frames;
      stop := o.stop;
      if stop {
        Unregister(socket);
      }
    }

    /** The socket goes away: `receive_text` raises, the loop breaks and the `finally` clause runs. */
    method Close(socket: Socket)
      requires Valid()
      modifies this
      ensures Valid() && State() == Next(old(State()), Event.Close(socket))
      ensures nextHandle == old(nextHandle) && outbox == old(outbox)
      ensures socket in old(loops) ==>
                users == old(users) - {old(loops)[socket]} && loops == old(loops) - {socket}
    {
      if socket in loops {
        Unregister(socket);
      }
    }

    /**
     * `websocket_endpoint` run alone from start to end: accept and register,
     * relay `inbox` until a turn breaks the loop or the socket closes, and
     * unregister. Afterwards `path` is unbound and every other binding is as before.
     */
    method Endpoint(path: UserId, accepted: Attempts, inbox: seq<Delivery>)
      requires Valid()
      modifies this
      ensures Valid() && loops == old(loops) && nextHandle == old(nextHandle) + 1
      ensures FirstAccepted(accepted, 0).None? ==> users == old(users) && outbox == old(outbox)
      ensures FirstAccepted(accepted, 0).Some? ==>
                users == old(users) - {path} &&
                outbox == old(outbox) + Conversation(old(users)[path := Socket(old(nextHandle))], path,
                                                     Socket(old(nextHandle)), inbox)
    {
      var socket, ok := Open(path, accepted);
      if !ok {
        return;
      }
      ghost var bound := users;
      assert bound == old(users)[path := socket];
      assert old(loops)[socket := path] - {socket} == old(loops);
      assert bound - {path} == old(users) - {path};
      var i := 0;
      while i < |inbox|
        invariant 0 <= i <= |inbox|
        invariant Valid() && users == bound && loops == old(loops)[socket := path]
        invariant nextHandle == old(nextHandle) + 1
        invariant outbox + Conversation(bound, path, socket, inbox[i..]) == old(outbox) + Conversation(bound, path, socket, inbox)
      {
        assert inbox[i..][1..] == inbox[i + 1..];
        var stop := Receive(socket, inbox[i].msg, inbox[i].sent);
        if stop {
          return;
        }
        i := i + 1;
      }
      Close(socket);
    }

    /** Any interleaving of events from all handlers, one at a time. */
    method Run(events: seq<Event>)
      requires Valid()
      modifies this
      ensures Valid() && State() == Replay(old(State()), events)
    {
      var i := 0;
      while i < |events|
        invariant 0 <= i <= |events| && Valid()
        invariant Replay(State(), events[i..]) == Replay(old(State()), events)
      {
        assert events[i..][1..] == events[i + 1..];
        match events[i] {
          case Open(path, accepted) =>
            var _, _ := Open(path, accepted);
          case Receive(socket, msg, sent) =>
            var _ := Receive(socket, msg, sent);
          case Close(socket) =>
            Close(socket);
        }
        i := i + 1;
      }
    }
  }
}
