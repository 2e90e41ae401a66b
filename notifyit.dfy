/**
 * The channel bookkeeping of NotifyIt as one sequential state machine: the
 * connected sockets and their rooms, the `listening` map from channel to
 * upstream client, the queue of cleanups deferred with `process.nextTick`,
 * and the events each step emits. Node runs the callbacks one at a time,
 * so every step is a method run to completion.
 */
module NotifyIt {
  import opened JsonValues
  import opened Naming
  import PubRoute

  type SocketId = string

  /** An upstream notification client (`pg.Client`), known only by identity. */
  type Handle = nat

  /** What an emission carries. */
  datatype Envelope = Envelope(channel: string, eventName: string, data: Payload)
  datatype EventData = Wrapped(envelope: Envelope) | Notification(value: Json) | NoData

  /** One `emit`: the sockets it reaches, the event name and the data. */
  datatype Emission = Emission(to: set<SocketId>, name: string, data: EventData)

  /** Lifecycle events of upstream clients: opened for a channel, or ended. */
  datatype BridgeEvent = Opened(handle: Handle, channel: string) | Closed(handle: Handle)

  /** How a deferred cleanup ended. */
  datatype CleanupOutcome =
    | TornDown(channel: string, handle: Handle)  // the client was ended and its entry deleted
    | EndOnUndefined(channel: string)            // `listening[channel]` was undefined: `.end()` throws
    | Retained(channel: string)                  // the `if (!cnt)` else-branch, which `.lenth` makes unreachable

  /** The clients a bridge log leaves open, each with the channel it listens on. */
  ghost function OpenClients(log: seq<BridgeEvent>): map<Handle, string>
    decreases |log|
  {
    if log == [] then map[]
    else ApplyEvent(OpenClients(log[..|log| - 1]), log[|log| - 1])
  }

  ghost function ApplyEvent(open: map<Handle, string>, e: BridgeEvent): map<Handle, string> {
    match e
    case Opened(h, c) => open[h := c]
    case Closed(h) => open - {h}
  }

  lemma OpenClientsAppend(log: seq<BridgeEvent>, e: BridgeEvent)
    ensures OpenClients(log + [e]) == ApplyEvent(OpenClients(log), e)
  {
  }

  /** Every socket's room list names each room once. */
  ghost predicate RoomListsValid(roomsOf: map<SocketId, seq<string>>) {
    forall s :: s in roomsOf ==> NoDuplicates(roomsOf[s])
  }

  /**
   * `listening` and the live clients correspond one to one: each channel's
   * client captured that channel, each live client is its channel's entry,
   * and every client identity handed out so far is below `next`.
   */
  ghost predicate Paired(listening: map<string, Handle>, owner: map<Handle, string>, next: nat) {
    && (forall c :: c in listening ==> listening[c] in owner && owner[listening[c]] == c)
    && (forall h :: h in owner ==> owner[h] in listening && listening[owner[h]] == h && h < next)
  }

  /** Opening a fresh client for a channel without an entry keeps the pairing. */
  lemma PairedOpen(listening: map<string, Handle>, owner: map<Handle, string>, next: nat, c: string)
    requires Paired(listening, owner, next) && c !in listening
    ensures Paired(listening[c := next], owner[next := c], next + 1)
  {
  }

  /** Ending a channel's client and deleting its entry keeps the pairing. */
  lemma PairedClose(listening: map<string, Handle>, owner: map<Handle, string>, next: nat, c: string)
    requires Paired(listening, owner, next) && c in listening
    ensures Paired(listening - {c}, owner - {listening[c]}, next)
  {
  }

  lemma NoDuplicatesCons(a: string, rest: seq<string>)
    requires a !in rest && NoDuplicates(rest)
    ensures NoDuplicates([a] + rest)
  {
  }

  lemma NoDuplicatesSnoc(init: seq<string>, a: string)
    requires a !in init && NoDuplicates(init)
    ensures NoDuplicates(init + [a])
  {
  }

  predicate NoDuplicates(ks: seq<string>) {
    forall i, j :: 0 <= i < j < |ks| ==> ks[i] != ks[j]
  }

  /** A socket's room list after joining `k`: joining a room twice is joining it once. */
  function Joined(ks: seq<string>, k: string): (r: seq<string>)
    ensures forall x :: x in r <==> x in ks || x == k
    ensures |ks| <= |r| && r[..|ks|] == ks
    ensures k in ks ==> r == ks
    ensures NoDuplicates(ks) ==> NoDuplicates(r)
  {
    if k in ks then ks else ks + [k]
  }

  /** A socket's room list after leaving `k`. */
  function Without(ks: seq<string>, k: string): (r: seq<string>)
    ensures forall x :: x in r <==> x in ks && x != k
    ensures NoDuplicates(ks) ==> NoDuplicates(r)
    ensures |r| <= |ks|
  {
    if ks == [] then []
    else if ks[0] == k then Without(ks[1..], k)
    else
      var rest := Without(ks[1..], k);
      assert forall x :: x in ks <==> x == ks[0] || x in ks[1..];
      assert NoDuplicates(ks) ==> NoDuplicates(ks[1..]) && ks[0] !in ks[1..] by {
        if NoDuplicates(ks) {
          forall i, j | 0 <= i < j < |ks[1..]| ensures ks[1..][i] != ks[1..][j] {
            assert ks[1..][i] == ks[i + 1] && ks[1..][j] == ks[j + 1];
          }
          forall j | 0 <= j < |ks[1..]| ensures ks[1..][j] != ks[0] {
            assert ks[1..][j] == ks[j + 1];
          }
        }
      }
      if NoDuplicates(ks) then
        NoDuplicatesCons(ks[0], rest);
        [ks[0]] + rest
      else
        [ks[0]] + rest
  }

  /**
   * The room keys the disconnect handler leaves, in the order it visits
   * them: every key but the empty one (the namespace room).
   */
  function NonEmptyKeys(ks: seq<string>): (r: seq<string>)
    ensures forall k :: k in r <==> k in ks && k != ""
    ensures NoDuplicates(ks) ==> NoDuplicates(r)
    ensures |r| <= |ks|
    decreases |ks|
  {
    if ks == [] then []
    else
      var init := NonEmptyKeys(ks[..|ks| - 1]);
      var last := ks[|ks| - 1];
      assert forall x :: x in ks <==> x in ks[..|ks| - 1] || x == last;
      assert NoDuplicates(ks) ==> NoDuplicates(ks[..|ks| - 1]) && last !in ks[..|ks| - 1] by {
        if NoDuplicates(ks) {
          forall j | 0 <= j < |ks| - 1 ensures ks[j] != last {
          }
        }
      }
      if last == "" then init
      else
        if NoDuplicates(ks) then
          NoDuplicatesSnoc(init, last);
          init + [last]
        else
          init + [last]
  }

  lemma NonEmptyKeysAppend(ks: seq<string>, k: string)
    ensures NonEmptyKeys(ks + [k]) == NonEmptyKeys(ks) + (if k == "" then [] else [k])
  {
  }

  /** One more key visited by the disconnect loop. */
  lemma NonEmptyKeysPrefix(ks: seq<string>, i: nat)
    requires i < |ks|
    ensures NonEmptyKeys(ks[..i + 1]) == NonEmptyKeys(ks[..i]) + (if ks[i] == "" then [] else [ks[i]])
  {
    assert ks[..i + 1] == ks[..i] + [ks[i]];
    NonEmptyKeysAppend(ks[..i], ks[i]);
  }

  /** Every non-empty key of `current` is among `rest`. */
  ghost predicate OnlyIn(current: seq<string>, rest: seq<string>) {
    forall k :: k in current && k != "" ==> k in rest
  }

  /**
   * One turn of the disconnect loop: once the socket has left `rooms[i]`
   * (unless it is the namespace room), every non-empty room it is still in
   * comes later in `rooms`.
   */
  lemma LeaveStep(current: seq<string>, rooms: seq<string>, i: nat)
    requires i < |rooms| && OnlyIn(current, rooms[i..])
    ensures OnlyIn(if rooms[i] != "" then Without(current, rooms[i]) else current, rooms[i + 1..])
  {
    assert rooms[i..] == [rooms[i]] + rooms[i + 1..];
  }

  /**
   * The `.lenth` property of the clients array of a room: arrays have no
   * such property, so the read yields `undefined` whatever the members.
   */
  function Lenth(clients: set<SocketId>): (cnt: Option<nat>)
    ensures cnt.None?
  {
    None
  }

  /** `!cnt` for a count that may be `undefined`: `undefined` and `0` are falsy. */
  predicate Falsy(cnt: Option<nat>): (b: bool)
    ensures cnt.None? ==> b
    ensures cnt.Some? ==> (b <==> cnt.value == 0)
  {
    cnt.None? || cnt.value == 0
  }

  /** Cleanup's zero-member test passes for any set of members, empty or not. */
  lemma TeardownGateAlwaysOpen(clients: set<SocketId>)
    ensures Falsy(Lenth(clients))
  {
  }

  /** The sockets whose room list holds `key`. */
  function Members(roomsOf: map<SocketId, seq<string>>, key: string): set<SocketId> {
    set s | s in roomsOf && key in roomsOf[s]
  }

  class Hub {
    /** Whether a Postgres connection string was configured. */
    const bridging: bool
    /**
     * The socket manager's `roomClients`: for each connected socket, the room
     * keys it belongs to, in the order it joined them ("" is the namespace room).
     */
    var roomsOf: map<SocketId, seq<string>>
    /** The module-level `listening` map: channel to its upstream client. */
    var listening: map<string, Handle>
    /** The live upstream clients, each with the channel its notification handler captured. */
    var owner: map<Handle, string>
    /** The next client identity `new pg.Client` hands out. */
    var nextHandle: nat
    /** Room keys of cleanups scheduled with `process.nextTick` and not yet run, oldest first. */
    var pending: seq<string>
    /** Every upstream client opened and ended so far. */
    ghost var log: seq<BridgeEvent>

    /**
     * `listening` and the live clients are in one-to-one correspondence, the
     * bridge log leaves exactly those clients open, and no socket is in a
     * room twice.
     */
    ghost predicate Valid()
      reads this
    {
      && RoomListsValid(roomsOf)
      && Paired(listening, owner, nextHandle)
      && OpenClients(log) == owner
    }

    /** The connected sockets: those `io.sockets.emit` reaches. */
    function Connected(): set<SocketId>
      reads this
    {
      roomsOf.Keys
    }

    /** The members of the room filed under `key` (`io.sockets.clients`). */
    function Room(key: string): set<SocketId>
      reads this
    {
      Members(roomsOf, key)
    }

    constructor (bridging: bool)
      ensures Valid()
      ensures this.bridging == bridging
      ensures roomsOf == map[] && listening == map[] && owner == map[] && nextHandle == 0
      ensures pending == [] && log == []
    {
      this.bridging := bridging;
      roomsOf := map[];
      listening := map[];
      owner := map[];
      nextHandle := 0;
      pending := [];
      log := [];
    }

    /** No two live upstream clients listen on the same channel. */
    lemma AtMostOneClientPerChannel(h1: Handle, h2: Handle)
      requires Valid()
      requires h1 in OpenClients(log) && h2 in OpenClients(log)
      requires OpenClients(log)[h1] == OpenClients(log)[h2]
      ensures h1 == h2
    {
    }

    /**
     * A new socket: the socket manager files it in the namespace room; with
     * bridging disabled it is sent `connected`, with bridging enabled its
     * `subscribe` handler is installed instead and nothing is sent.
     */
    method Connect(s: SocketId) returns (out: seq<Emission>)
      requires Valid() && s !in roomsOf
      modifies this
      ensures Valid()
      ensures roomsOf == old(roomsOf)[s := [""]]
      ensures listening == old(listening) && owner == old(owner) && nextHandle == old(nextHandle)
      ensures pending == old(pending) && log == old(log)
      ensures out == if bridging then [] else [Emission({s}, "connected", NoData)]
    {
      roomsOf := roomsOf[s := [""]];
      if bridging {
        out := [];
      } else {
        out := [Emission({s}, "connected", NoData)];
      }
    }

    /** `socket.join(channel)`. */
    method Join(s: SocketId, channel: string)
      requires s in roomsOf
      modifies this`roomsOf
      ensures roomsOf == old(roomsOf)[s := Joined(old(roomsOf)[s], RoomKey(channel))]
    {
      roomsOf := roomsOf[s := Joined(roomsOf[s], RoomKey(channel))];
    }

    /**
     * A `subscribe` event. Without bridging no handler is installed and
     * nothing changes. Otherwise the socket joins the channel's room, and
     * only when the channel has no entry in `listening` a new client is
     * opened for it and stored; every other entry is left as it was.
     */
    method Subscribe(s: SocketId, channel: string)
      requires Valid() && s in roomsOf
      modifies this
      ensures Valid()
      ensures !bridging ==>
        roomsOf == old(roomsOf) && listening == old(listening) && owner == old(owner)
        && nextHandle == old(nextHandle) && log == old(log)
      ensures bridging ==> roomsOf == old(roomsOf)[s := Joined(old(roomsOf)[s], RoomKey(channel))]
      ensures bridging && channel in old(listening) ==>
        listening == old(listening) && owner == old(owner) && nextHandle == old(nextHandle) && log == old(log)
      ensures bridging && channel !in old(listening) ==>
        && listening == old(listening)[channel := old(nextHandle)]
        && owner == old(owner)[old(nextHandle) := channel]
        && nextHandle == old(nextHandle) + 1
        && log == old(log) + [Opened(old(nextHandle), channel)]
      ensures pending == old(pending)
    {
      if !bridging {
        return;
      }
      Join(s, channel);
      if channel !in listening {
        var client := nextHandle;
        nextHandle := nextHandle + 1;
        PairedOpen(listening, owner, nextHandle - 1, channel);
        listening := listening[channel := client];
        owner := owner[client := channel];
        OpenClientsAppend(log, Opened(client, channel));
        log := log + [Opened(client, channel)];
      }
    }

    /**
     * A notification from upstream client `h`. A payload that parses is
     * emitted once, as `notification`, to the members of the room of the
     * channel the client listens on; one that does not is dropped.
     */
    method Notify(h: Handle, payload: string, parse: Parser) returns (out: seq<Emission>)
      requires h in owner
      ensures parse(payload).None? ==> out == []
      ensures parse(payload).Some? ==>
        out == [Emission(Room(RoomKey(owner[h])), "notification", Notification(parse(payload).value))]
    {
      var channel := owner[h];
      match parse(payload)
      case Some(obj) =>
        out := [Emission(Room(RoomKey(channel)), "notification", Notification(obj))];
      case None =>
        out := [];
    }

    /**
     * `publish`: two emissions of one envelope holding the inputs, first
     * under `channel:eventName` and then under `all`, each to every
     * connected socket whatever rooms it is in. The log line before them
     * calls `obj.toString()`; when that throws, nothing is emitted.
     */
    method Publish(channel: string, eventName: string, obj: Payload) returns (out: seq<Emission>, thrown: bool)
      ensures thrown <==> PayloadToStringThrows(obj)
      ensures thrown ==> out == []
      ensures !thrown ==> |out| == 2
      ensures !thrown ==> out[0].name == EventName(channel, eventName) && out[1].name == "all"
      ensures forall i :: 0 <= i < |out| ==>
        out[i].to == Connected() && out[i].data == Wrapped(Envelope(channel, eventName, obj))
    {
      var evt := EventName(channel, eventName);
      var wrapper := Envelope(channel, eventName, obj);
      if PayloadToStringThrows(obj) {
        return [], true;
      }
      out := [Emission(Connected(), evt, Wrapped(wrapper)), Emission(Connected(), "all", Wrapped(wrapper))];
      thrown := false;
    }

    /**
     * A publish request: nothing is emitted unless the body decision yields
     * an object, and then exactly what `publish` emits for it. When
     * `publish` throws, the handler stops before its final `send(200)`.
     */
    method RoutePubRequest(isJson: bool, body: string, channel: string, eventName: string, parse: Parser)
      returns (statuses: seq<int>, out: seq<Emission>, thrown: bool)
      ensures thrown <==>
        PubRoute.RoutePub(isJson, body, parse).publish.Some?
        && PayloadToStringThrows(PubRoute.RoutePub(isJson, body, parse).publish.value)
      ensures !thrown ==> statuses == PubRoute.RoutePub(isJson, body, parse).statuses
      ensures thrown ==> statuses == [] && out == []
      ensures isJson && parse(body).None? ==> out == [] && PubRoute.MalformedStatus in statuses
      ensures !isJson && body == "" ==> out == []
      ensures !isJson && body != "" ==> !thrown && |out| == 2 && out[0].data == Wrapped(Envelope(channel, eventName, Raw(body)))
      ensures PubRoute.RoutePub(isJson, body, parse).publish.None? ==> out == []
      ensures PubRoute.RoutePub(isJson, body, parse).publish.Some? && !thrown ==>
        |out| == 2 && out[0].name == EventName(channel, eventName) && out[1].name == "all"
        && forall i :: 0 <= i < 2 ==>
             out[i].to == Connected()
             && out[i].data == Wrapped(Envelope(channel, eventName, PubRoute.RoutePub(isJson, body, parse).publish.value))
    {
      var reply := PubRoute.RoutePub(isJson, body, parse);
      statuses := reply.statuses;
      thrown := false;
      if reply.publish.Some? {
        out, thrown := Publish(channel, eventName, reply.publish.value);
        if thrown {
          statuses := [];  // the handler never reaches `response.send(200)`
        }
      } else {
        out := [];
      }
    }

    /**
     * The `disconnect` handler: it leaves every room key of the socket except
     * the empty one (the namespace room) and schedules one cleanup per key
     * left, in the order the socket joined them.
     */
    method LeaveAllRooms(s: SocketId)
      requires s in roomsOf
      modifies this`roomsOf, this`pending
      ensures s in roomsOf && roomsOf == old(roomsOf)[s := roomsOf[s]]
      ensures forall k :: k in roomsOf[s] ==> k == ""
      ensures "" in old(roomsOf)[s] ==> "" in roomsOf[s]
      ensures pending == old(pending) + NonEmptyKeys(old(roomsOf)[s])
    {
      var rooms := roomsOf[s];
      var i := 0;
      while i < |rooms|
        invariant 0 <= i <= |rooms|
        invariant s in roomsOf && roomsOf == old(roomsOf)[s := roomsOf[s]]
        invariant OnlyIn(roomsOf[s], rooms[i..])
        invariant "" in rooms ==> "" in roomsOf[s]
        invariant pending == old(pending) + NonEmptyKeys(rooms[..i])
      {
        var room := rooms[i];
        LeaveStep(roomsOf[s], rooms, i);
        NonEmptyKeysPrefix(rooms, i);
        if room != "" {
          roomsOf := roomsOf[s := Without(roomsOf[s], room)];  // socket.leave(room)
          pending := pending + [room];
        }
        i := i + 1;
      }
      assert rooms[..i] == rooms;
    }

    /**
     * A socket disconnects: the handler runs, then the socket manager drops
     * the socket from the namespace room and forgets it. `listening` is not
     * touched.
     */
    method Disconnect(s: SocketId)
      requires Valid() && s in roomsOf
      modifies this
      ensures Valid()
      ensures roomsOf == old(roomsOf) - {s}
      ensures pending == old(pending) + NonEmptyKeys(old(roomsOf)[s])
      ensures listening == old(listening) && owner == old(owner) && nextHandle == old(nextHandle) && log == old(log)
    {
      LeaveAllRooms(s);
      roomsOf := roomsOf - {s};
      assert roomsOf == old(roomsOf) - {s};
    }

    /**
     * The oldest deferred cleanup. Its channel is the segment of the room key
     * after the first '/'. The member count is read as `.lenth`, which is
     * undefined, so the client is ended and the entry deleted even when
     * members remain; when the channel has no entry, `.end()` is called on
     * undefined and fails before anything is deleted.
     */
    method RunCleanup() returns (outcome: CleanupOutcome)
      requires Valid() && pending != []
      modifies this
      ensures Valid()
      ensures pending == old(pending)[1..]
      ensures roomsOf == old(roomsOf) && nextHandle == old(nextHandle)
      ensures var c := CleanupChannel(old(pending)[0]);
        if c in old(listening) then
          && outcome == TornDown(c, old(listening)[c])
          && listening == old(listening) - {c}
          && owner == old(owner) - {old(listening)[c]}
          && log == old(log) + [Closed(old(listening)[c])]
        else
          outcome == EndOnUndefined(c) && listening == old(listening) && owner == old(owner) && log == old(log)
    {
      var room := pending[0];
      pending := pending[1..];
      var channel := CleanupChannel(room);
      var cnt := Lenth(Room(RoomKey(channel)));
      if Falsy(cnt) {
        if channel !in listening {
          outcome := EndOnUndefined(channel);
          return;
        }
        var client := listening[channel];
        PairedClose(listening, owner, nextHandle, channel);
        OpenClientsAppend(log, Closed(client));
        log := log + [Closed(client)];
        owner := owner - {client};
        listening := listening - {channel};
        outcome := TornDown(channel, client);
      } else {
        outcome := Retained(channel);
      }
    }
  }
}
