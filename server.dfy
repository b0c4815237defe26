/**
 * The socket server of server.js: per-connection handshake gate, room
 * membership driven by `subscribe` / `unsubscribe`, disconnection, and the
 * timer tick that publishes `tasksUpdate` to one room. socket.io rooms are a
 * membership relation between connection handles and room keys; every emit is
 * recorded in an outbox, and `io.to(room).emit` addresses exactly the members of
 * the room at the time of the call.
 */
module Broadcast {
  import opened Wrappers
  import opened Text
  import opened JsValues
  import opened Rooms

  /** A connection handle, allocated by `Connect` and never reused. */
  type Handle = nat

  /** Where a connection stands with respect to the handshake gate. */
  datatype ConnState = New | Authenticated(userAuth: string) | Disconnected

  /** What the server emits: the event name is given by `EventName`. */
  datatype Message =
    | HandshakeAck(success: bool)
    | HandshakeError(error: string)
    | TasksUpdate(isNew: bool, kind: string)

  function EventName(m: Message): (name: string)
    ensures m.HandshakeAck? <==> name == "handshake"
    ensures m.HandshakeError? <==> name == "error"
    ensures m.TasksUpdate? <==> name == "tasksUpdate"
  {
    match m
    case HandshakeAck(_) => "handshake"
    case HandshakeError(_) => "error"
    case TasksUpdate(_, _) => "tasksUpdate"
  }

  /** One emit: `socket.emit` addresses one handle, `io.to(room).emit` the room's members. */
  datatype Emission = Emission(recipients: set<Handle>, message: Message)

  /** The messages handle `h` receives from the outbox, in emission order. */
  function Inbox(outbox: seq<Emission>, h: Handle): seq<Message> {
    if outbox == [] then []
    else
      (if h in outbox[0].recipients then [outbox[0].message] else []) + Inbox(outbox[1..], h)
  }

  /** What a handle receives from two batches of emits is what it receives from each, in order. */
  lemma {:induction false} InboxAppend(a: seq<Emission>, b: seq<Emission>, h: Handle)
    ensures Inbox(a + b, h) == Inbox(a, h) + Inbox(b, h)
  {
    if a == [] {
      assert a + b == b;
    } else {
      var head := if h in a[0].recipients then [a[0].message] else [];
      assert (a + b)[0] == a[0];
      assert (a + b)[1..] == a[1..] + b;
      assert Inbox(a + b, h) == head + Inbox(a[1..] + b, h);
      InboxAppend(a[1..], b, h);
      assert Inbox(a, h) == head + Inbox(a[1..], h);
    }
  }

  /** One more emit reaches `h` exactly when `h` is among its recipients. */
  lemma InboxEmit(outbox: seq<Emission>, e: Emission, h: Handle)
    ensures Inbox(outbox + [e], h) == Inbox(outbox, h) + (if h in e.recipients then [e.message] else [])
  {
    InboxAppend(outbox, [e], h);
    assert Inbox([e], h) == (if h in e.recipients then [e.message] else []) + Inbox([], h);
  }

  /** Room membership: the pairs (handle, room key) for which the handle has joined the room. */
  type Membership = set<(Handle, string)>

  /** The members of a room. */
  function MembersOf(m: Membership, key: string): (hs: set<Handle>)
    ensures forall h :: h in hs <==> (h, key) in m
  {
    set p | p in m && p.1 == key :: p.0
  }

  /** The rooms a handle belongs to. */
  function RoomsOf(m: Membership, h: Handle): (keys: set<string>)
    ensures forall k :: k in keys <==> (h, k) in m
  {
    set p | p in m && p.0 == h :: p.1
  }

  /** `socket.join(key)`: the one pair is added; every other room and every other handle is untouched. */
  function Joined(m: Membership, h: Handle, key: string): (r: Membership)
    ensures MembersOf(r, key) == MembersOf(m, key) + {h}
    ensures forall k :: k != key ==> MembersOf(r, k) == MembersOf(m, k)
    ensures forall h' :: h' != h ==> RoomsOf(r, h') == RoomsOf(m, h')
    ensures RoomsOf(r, h) == RoomsOf(m, h) + {key}
  {
    m + {(h, key)}
  }

  /** `socket.leave(key)`: the one pair is removed; every other room and every other handle is untouched. */
  function Left(m: Membership, h: Handle, key: string): (r: Membership)
    ensures MembersOf(r, key) == MembersOf(m, key) - {h}
    ensures forall k :: k != key ==> MembersOf(r, k) == MembersOf(m, k)
    ensures forall h' :: h' != h ==> RoomsOf(r, h') == RoomsOf(m, h')
    ensures RoomsOf(r, h) == RoomsOf(m, h) - {key}
  {
    m - {(h, key)}
  }

  /** Disconnection: the handle leaves every room; no other handle's rooms change. */
  function LeftAll(m: Membership, h: Handle): (r: Membership)
    ensures r <= m
    ensures RoomsOf(r, h) == {}
    ensures forall h' :: h' != h ==> RoomsOf(r, h') == RoomsOf(m, h')
    ensures forall k :: MembersOf(r, k) == MembersOf(m, k) - {h}
  {
    set p | p in m && p.0 != h
  }

  lemma JoinIdempotent(m: Membership, h: Handle, key: string)
    ensures Joined(Joined(m, h, key), h, key) == Joined(m, h, key)
  {
  }

  lemma LeaveNonMember(m: Membership, h: Handle, key: string)
    requires (h, key) !in m
    ensures Left(m, h, key) == m
  {
  }

  lemma JoinThenLeave(m: Membership, h: Handle, key: string)
    requires (h, key) !in m
    ensures Left(Joined(m, h, key), h, key) == m
  {
  }

  lemma LeftAllIdempotent(m: Membership, h: Handle)
    ensures LeftAll(LeftAll(m, h), h) == LeftAll(m, h)
  {
  }

  /** The fields of a `subscribe` / `unsubscribe` payload. */
  datatype RoomRequest = RoomRequest(taskType: Option<string>, teamId: Option<string>)

  /** The room a request names: `${data.taskType} ${data.teamId}`.toUpperCase(). */
  function RequestKey(req: RoomRequest): (key: string)
    ensures key == Upper(Render(req.taskType)) + " " + Upper(Render(req.teamId))
  {
    RoomKey(Render(req.taskType), Render(req.teamId))
  }

  /**
   * An absent field is rendered as "undefined": it names the same room as a client
   * that sends that string, and a request without fields names "UNDEFINED UNDEFINED".
   */
  lemma AbsentFieldReadsAsUndefined(taskType: Option<string>, teamId: Option<string>)
    ensures RequestKey(RoomRequest(None, teamId)) == RequestKey(RoomRequest(Some("undefined"), teamId))
    ensures RequestKey(RoomRequest(taskType, None)) == RequestKey(RoomRequest(taskType, Some("undefined")))
    ensures RequestKey(RoomRequest(None, None)) == "UNDEFINED UNDEFINED"
  {
    assert Upper("undefined") == "UNDEFINED";
  }

  /** The message a tick with category index `c` and flag index `f` publishes. */
  function TickMessage(c: nat, f: nat): (m: Message)
    requires c < |Categories| && f < |Flags|
    ensures m.TasksUpdate? && EventName(m) == "tasksUpdate"
    ensures m.kind in CategoryNames && Upper(m.kind) == Categories[c]
    ensures m.isNew <==> f == 0
  {
    TasksUpdate(Juicer(Flags, f), TickType(c))
  }

  class Server {
    /** Every connection ever made, with its state. */
    var conns: map<Handle, ConnState>
    /** Which handle is in which room. */
    var membership: Membership
    /** Every emit so far, in order. */
    var outbox: seq<Emission>
    /** Handles whose `getTeams()` request is outstanding; its `teams` emit comes later. */
    var teamsRequests: seq<Handle>
    /** The next handle `Connect` hands out. */
    var nextHandle: nat

    /**
     * Handles are never reused, only authenticated connections are members of
     * rooms, and every emit addresses known connections.
     */
    ghost predicate Valid()
      reads this
    {
      && (forall h :: h in conns ==> h < nextHandle)
      && (forall p :: p in membership ==> p.0 in conns && conns[p.0].Authenticated?)
      && (forall i :: 0 <= i < |outbox| ==> outbox[i].recipients <= conns.Keys)
      && (forall i :: 0 <= i < |teamsRequests| ==> teamsRequests[i] in conns)
    }

    /** The handshake handler of `h` is installed and its transport is open. */
    predicate Open(h: Handle)
      reads this
    {
      h in conns && !conns[h].Disconnected?
    }

    /** The `subscribe` / `unsubscribe` handlers of `h` are installed. */
    predicate Admitted(h: Handle)
      reads this
    {
      h in conns && conns[h].Authenticated?
    }

    constructor ()
      ensures Valid()
      ensures conns == map[] && membership == {} && outbox == [] && teamsRequests == [] && nextHandle == 0
    {
      conns, membership, outbox, teamsRequests, nextHandle := map[], {}, [], [], 0;
    }

    /** A new transport connection: a fresh handle in state `New`. */
    method Connect() returns (h: Handle)
      requires Valid()
      modifies this
      ensures Valid()
      ensures h == old(nextHandle) && h !in old(conns)
      ensures conns == old(conns)[h := New] && nextHandle == old(nextHandle) + 1
      ensures membership == old(membership) && outbox == old(outbox) && teamsRequests == old(teamsRequests)
    {
      h := nextHandle;
      conns := conns[h := New];
      nextHandle := nextHandle + 1;
    }

    /**
     * The `handshake` handler. A falsy `auth` emits one `error` and disconnects;
     * a truthy one acknowledges, requests the team list, records `userAuth` and
     * installs the room handlers. The handler stays installed after success, so a
     * later handshake runs the same gate again.
     */
    method Handshake(h: Handle, auth: Option<string>)
      requires Valid()
      modifies this
      ensures Valid()
      ensures nextHandle == old(nextHandle)
      ensures !old(Open(h)) ==>
        conns == old(conns) && membership == old(membership) && outbox == old(outbox)
        && teamsRequests == old(teamsRequests)
      ensures old(Open(h)) && !Truthy(auth) ==>
        && conns == old(conns)[h := Disconnected]
        && membership == LeftAll(old(membership), h)
        && outbox == old(outbox) + [Emission({h}, HandshakeError("Invalid handshake"))]
        && teamsRequests == old(teamsRequests)
      ensures old(Open(h)) && Truthy(auth) ==>
        && conns == old(conns)[h := Authenticated(auth.value)]
        && membership == old(membership)
        && outbox == old(outbox) + [Emission({h}, HandshakeAck(true))]
        && teamsRequests == old(teamsRequests) + [h]
    {
      if !Open(h) {
        return;
      }
      if !Truthy(auth) {
        outbox := outbox + [Emission({h}, HandshakeError("Invalid handshake"))];
        conns := conns[h := Disconnected];
        membership := LeftAll(membership, h);
        return;
      }
      outbox := outbox + [Emission({h}, HandshakeAck(true))];
      teamsRequests := teamsRequests + [h];
      conns := conns[h := Authenticated(auth.value)];
    }

    /** The `subscribe` handler: join the request's room, if the handler is installed. */
    method Subscribe(h: Handle, req: RoomRequest)
      requires Valid()
      modifies this
      ensures Valid()
      ensures membership == if old(Admitted(h)) then Joined(old(membership), h, RequestKey(req)) else old(membership)
      ensures conns == old(conns) && outbox == old(outbox) && teamsRequests == old(teamsRequests)
      ensures nextHandle == old(nextHandle)
    {
      if Admitted(h) {
        membership := Joined(membership, h, RequestKey(req));
      }
    }

    /** The `unsubscribe` handler: leave the request's room, if the handler is installed. */
    method Unsubscribe(h: Handle, req: RoomRequest)
      requires Valid()
      modifies this
      ensures Valid()
      ensures membership == if old(Admitted(h)) then Left(old(membership), h, RequestKey(req)) else old(membership)
      ensures conns == old(conns) && outbox == old(outbox) && teamsRequests == old(teamsRequests)
      ensures nextHandle == old(nextHandle)
    {
      if Admitted(h) {
        membership := Left(membership, h, RequestKey(req));
      }
    }

    /** The transport closes: the handle leaves every room. Closing twice changes nothing more. */
    method Disconnect(h: Handle)
      requires Valid()
      modifies this
      ensures Valid()
      ensures conns == if h in old(conns) then old(conns)[h := Disconnected] else old(conns)
      ensures membership == LeftAll(old(membership), h)
      ensures forall k :: h !in MembersOf(membership, k)
      ensures outbox == old(outbox) && teamsRequests == old(teamsRequests) && nextHandle == old(nextHandle)
    {
      if h in conns {
        conns := conns[h := Disconnected];
      }
      membership := LeftAll(membership, h);
    }

    /**
     * One timer tick, with the random draws passed in as the indices `c` into
     * `Categories` and `f` into `Flags`: `tasksUpdate` goes to exactly the current
     * members of the category's room for the generator's team.
     */
    method Tick(c: nat, f: nat)
      requires Valid()
      requires c < |Categories| && f < |Flags|
      modifies this
      ensures Valid()
      ensures outbox == old(outbox) + [Emission(MembersOf(old(membership), TickRoom(c)), TickMessage(c, f))]
      ensures forall h: Handle :: Inbox(outbox, h) ==
                                  Inbox(old(outbox), h) + (if (h, TickRoom(c)) in old(membership) then [TickMessage(c, f)] else [])
      ensures conns == old(conns) && membership == old(membership) && teamsRequests == old(teamsRequests)
      ensures nextHandle == old(nextHandle)
    {
      var roomId := TickRoom(c);
      var e := Emission(MembersOf(membership, roomId), TickMessage(c, f));
      forall h: Handle ensures Inbox(outbox + [e], h) == Inbox(outbox, h) + (if h in e.recipients then [e.message] else []) {
        InboxEmit(outbox, e, h);
      }
      outbox := outbox + [e];
    }
  }

  /** Two clients connect and handshake. */
  method TwoClients() returns (s: Server, hx: Handle, hy: Handle)
    ensures fresh(s) && s.Valid() && hx != hy
    ensures s.Admitted(hx) && s.Admitted(hy)
    ensures s.outbox == [Emission({hx}, HandshakeAck(true)), Emission({hy}, HandshakeAck(true))]
    ensures s.membership == {}
  {
    s := new Server();
    hx := s.Connect();
    hy := s.Connect();
    s.Handshake(hx, Some("abc"));
    s.Handshake(hy, Some("def"));
    assert s.outbox == [Emission({hx}, HandshakeAck(true))] + [Emission({hy}, HandshakeAck(true))];
  }

  /**
   * Then X subscribes to the pending room of the generator's team using lower
   * case, and Y to its completed room.
   */
  method TwoSubscribers() returns (s: Server, hx: Handle, hy: Handle)
    ensures fresh(s) && s.Valid() && hx != hy
    ensures s.outbox == [Emission({hx}, HandshakeAck(true)), Emission({hy}, HandshakeAck(true))]
    ensures s.membership == {(hx, TickRoom(2)), (hy, TickRoom(0))}
  {
    s, hx, hy := TwoClients();
    s.Subscribe(hx, RoomRequest(Some("pending"), Some(GeneratorTeamId)));
    s.Subscribe(hy, RoomRequest(Some("completed"), Some(GeneratorTeamId)));
    GeneratorKeys();
  }

  /** Then a tick on the pending category reaches X and not Y. */
  method PendingTickScenario() returns (x: seq<Message>, y: seq<Message>)
    ensures x == [HandshakeAck(true), TasksUpdate(true, "pending")]
    ensures y == [HandshakeAck(true)]
  {
    var s, hx, hy := TwoSubscribers();
    assert TickRoom(2) != TickRoom(0);
    s.Tick(2, 0);
    assert TickMessage(2, 0) == TasksUpdate(true, "pending") by {
      assert Lower("PENDING") == "pending";
    }
    var out := s.outbox;
    assert out == [Emission({hx}, HandshakeAck(true)), Emission({hy}, HandshakeAck(true)), out[2]];
    AcksThenTick(hx, hy, out[2]);
    x := Inbox(out, hx);
    y := Inbox(out, hy);
  }

  /** The inboxes after two acknowledgements and one broadcast that reaches only the first handle. */
  lemma AcksThenTick(hx: Handle, hy: Handle, e: Emission)
    requires hx != hy && hx in e.recipients && hy !in e.recipients
    ensures Inbox([Emission({hx}, HandshakeAck(true)), Emission({hy}, HandshakeAck(true)), e], hx) == [HandshakeAck(true), e.message]
    ensures Inbox([Emission({hx}, HandshakeAck(true)), Emission({hy}, HandshakeAck(true)), e], hy) == [HandshakeAck(true)]
  {
    var ex, ey := Emission({hx}, HandshakeAck(true)), Emission({hy}, HandshakeAck(true));
    forall h: Handle | h == hx || h == hy
      ensures Inbox([ex, ey, e], h) == Inbox([ex], h) + Inbox([ey], h) + Inbox([e], h)
    {
      assert [ex, ey, e] == [ex] + [ey] + [e];
      InboxAppend([ex] + [ey], [e], h);
      InboxAppend([ex], [ey], h);
    }
    assert Inbox([ex], hx) == [HandshakeAck(true)] && Inbox([ex], hy) == [];
    assert Inbox([ey], hx) == [] && Inbox([ey], hy) == [HandshakeAck(true)];
    assert Inbox([e], hx) == [e.message] && Inbox([e], hy) == [];
  }

  /** Lower-case requests for the generator's team name the generator's rooms. */
  lemma GeneratorKeys()
    ensures RequestKey(RoomRequest(Some("pending"), Some(GeneratorTeamId))) == TickRoom(2)
    ensures RequestKey(RoomRequest(Some("completed"), Some(GeneratorTeamId))) == TickRoom(0)
  {
    GeneratorTeamIdUpper();
    assert Upper("pending") == "PENDING";
    assert Upper("completed") == "COMPLETED";
  }
}
