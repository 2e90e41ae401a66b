/**
 * Runs of the hub that show, from the contracts of its steps alone, what
 * the relay does for a few concrete sequences of events.
 */
module Scenarios {
  import opened JsonValues
  import opened Naming
  import opened NotifyIt

  /**
   * Sockets "a" and "b" connect to a bridging hub and subscribe to
   * "orders", "a" twice: both are in the room once and one client is open.
   */
  method TwoSubscribers() returns (hub: Hub)
    ensures fresh(hub) && hub.Valid() && hub.bridging
    ensures hub.roomsOf == map["a" := ["", "/orders"], "b" := ["", "/orders"]]
    ensures hub.listening == map["orders" := 0] && hub.owner == map[0 := "orders"]
    ensures hub.pending == []
  {
    hub := new Hub(true);
    var greetA := hub.Connect("a");
    var greetB := hub.Connect("b");
    hub.Subscribe("a", "orders");
    JoinOrders();
    assert hub.listening == map["orders" := 0];
    hub.Subscribe("b", "orders");
    hub.Subscribe("a", "orders");
  }

  /**
   * From there, "a" disconnects: one cleanup, for "/orders", is scheduled
   * and "b" alone remains in the room; the client is still open.
   */
  method DisconnectA(hub: Hub)
    requires hub.Valid()
    requires hub.roomsOf == map["a" := ["", "/orders"], "b" := ["", "/orders"]]
    requires hub.listening == map["orders" := 0] && hub.owner == map[0 := "orders"] && hub.pending == []
    modifies hub
    ensures hub.Valid()
    ensures hub.roomsOf == map["b" := ["", "/orders"]] && hub.pending == ["/orders"]
    ensures hub.listening == map["orders" := 0] && hub.owner == map[0 := "orders"]
  {
    OneCleanupForOrders();
    hub.Disconnect("a");
    assert hub.roomsOf == map["b" := ["", "/orders"]];
  }

  /**
   * The cleanup scheduled by "a" ends the "orders" client although "b" is
   * still in the room.
   */
  method FirstDisconnect(hub: Hub) returns (first: CleanupOutcome, orphaned: set<SocketId>)
    requires hub.Valid()
    requires hub.roomsOf == map["a" := ["", "/orders"], "b" := ["", "/orders"]]
    requires hub.listening == map["orders" := 0] && hub.owner == map[0 := "orders"] && hub.pending == []
    modifies hub
    ensures hub.Valid()
    ensures hub.roomsOf == map["b" := ["", "/orders"]] && hub.listening == map[] && hub.pending == []
    ensures first == TornDown("orders", 0)
    ensures orphaned == {"b"}
  {
    DisconnectA(hub);
    CleanupOfOrders();
    first := hub.RunCleanup();
    OrdersMembers();
    orphaned := hub.Room(RoomKey("orders"));
  }

  /** Who is in the "orders" room in the two room tables above. */
  lemma OrdersMembers()
    ensures Members(map["b" := ["", "/orders"]], RoomKey("orders")) == {"b"}
    ensures Members(map["a" := ["", "/orders"], "b" := [""]], RoomKey("orders")) == {"a"}
  {
    assert RoomKey("orders") == "/orders";
    assert "/orders" in ["", "/orders"];
    assert "/orders" !in [""];
  }

  /**
   * Then "b" disconnects: its cleanup finds no entry for "orders" and
   * `.end()` fails. The first cleanup had already ended the client while
   * "b" was still in the room.
   */
  method PrematureTeardown() returns (first: CleanupOutcome, orphaned: set<SocketId>, second: CleanupOutcome)
    ensures first == TornDown("orders", 0)
    ensures orphaned == {"b"}
    ensures second == EndOnUndefined("orders")
  {
    var hub := TwoSubscribers();
    first, orphaned := FirstDisconnect(hub);
    OneCleanupForOrders();
    CleanupOfOrders();
    hub.Disconnect("b");
    assert hub.pending == ["/orders"];
    second := hub.RunCleanup();
  }

  /** The disconnect handler schedules one cleanup, for "/orders", and skips the namespace room. */
  lemma OneCleanupForOrders()
    ensures NonEmptyKeys(["", "/orders"]) == ["/orders"]
  {
  }

  lemma JoinOrders()
    ensures Joined([""], RoomKey("orders")) == ["", "/orders"]
  {
    assert RoomKey("orders") == "/orders";
    assert |"/orders"| == 7;
    assert "/orders" !in [""];
  }

  /**
   * Without bridging a new socket is greeted with `connected`, and its
   * `subscribe` neither joins a room nor opens an upstream client.
   */
  method WithoutBridging() returns (greeting: seq<Emission>, rooms: seq<string>, clients: map<string, Handle>)
    ensures greeting == [Emission({"a"}, "connected", NoData)]
    ensures rooms == [""]
    ensures clients == map[]
  {
    var hub := new Hub(false);
    greeting := hub.Connect("a");
    hub.Subscribe("a", "orders");
    rooms := hub.roomsOf["a"];
    clients := hub.listening;
  }

  /**
   * Socket "a" subscribes to "orders", socket "b" subscribes to nothing. A
   * publish on "orders" reaches both, under the composite name and under
   * `all`; a notification on the "orders" client reaches "a" only.
   */
  method FanOut(parse: Parser) returns (published: seq<Emission>, notified: seq<Emission>)
    requires parse("{\"status\":\"shipped\"}") == Some(JObj([("status", JStr("shipped"))]))
    ensures |published| == 2
    ensures published[0].name == "orders:created" && published[1].name == "all"
    ensures published[0].to == {"a", "b"} && published[1].to == {"a", "b"}
    ensures notified == [Emission({"a"}, "notification", Notification(JObj([("status", JStr("shipped"))])))]
  {
    var hub := SubscriberAndBystander();
    var thrown;
    IdObjectConverts();
    published, thrown := hub.Publish("orders", "created", Parsed(JObj([("id", JNum(42.0))])));
    assert hub.Connected() == {"a", "b"};
    OrdersMembers();
    notified := hub.Notify(0, "{\"status\":\"shipped\"}", parse);
  }

  /** Socket "a" subscribes to "orders"; socket "b" only connects. */
  method SubscriberAndBystander() returns (hub: Hub)
    ensures fresh(hub) && hub.Valid()
    ensures hub.roomsOf == map["a" := ["", "/orders"], "b" := [""]]
    ensures hub.owner == map[0 := "orders"]
  {
    hub := new Hub(true);
    var greetA := hub.Connect("a");
    var greetB := hub.Connect("b");
    hub.Subscribe("a", "orders");
    JoinOrders();
    assert hub.roomsOf == map["a" := ["", "/orders"], "b" := [""]];
  }

  /** An object without a "toString" key of its own converts to a string. */
  lemma IdObjectConverts()
    ensures !PayloadToStringThrows(Parsed(JObj([("id", JNum(42.0))])))
  {
    assert JObj([("id", JNum(42.0))]).fields[0].0 != "toString";
  }

  /**
   * A JSON body whose object has its own "toString" key: the log line in
   * `publish` throws before either emit, so nothing is broadcast and the
   * handler never sends its 200.
   */
  method ToStringKeyAbortsPublish(parse: Parser) returns (statuses: seq<int>, out: seq<Emission>, thrown: bool)
    requires parse("{\"toString\":1}") == Some(JObj([("toString", JNum(1.0))]))
    ensures thrown && statuses == [] && out == []
  {
    var hub := new Hub(false);
    var greeting := hub.Connect("a");
    assert JObj([("toString", JNum(1.0))]).fields[0].0 == "toString";
    statuses, out, thrown := hub.RoutePubRequest(true, "{\"toString\":1}", "orders", "created", parse);
  }

  /** A socket's first join after connecting appends the room key. */
  lemma JoinFirst(channel: string)
    ensures Joined([""], RoomKey(channel)) == ["", RoomKey(channel)]
  {
    assert RoomKey(channel) !in [""];
  }

  /** A socket in one room besides the namespace room schedules one cleanup, for that room. */
  lemma OneCleanupFor(channel: string)
    ensures NonEmptyKeys(["", RoomKey(channel)]) == [RoomKey(channel)]
  {
    NonEmptyKeysAppend([""], RoomKey(channel));
    assert [""] + [RoomKey(channel)] == ["", RoomKey(channel)];
  }

  /**
   * The only subscriber of "a/b" disconnects. Its cleanup looks up "a",
   * finds no entry and fails, so the "a/b" client is never ended and its
   * entry outlives the room's last member.
   */
  method NestedChannelNeverEnded() returns (outcome: CleanupOutcome, clients: map<string, Handle>, open: map<Handle, string>)
    ensures outcome == EndOnUndefined("a")
    ensures clients == map["a/b" := 0] && open == map[0 := "a/b"]
  {
    var hub := new Hub(true);
    var greeting := hub.Connect("s");
    hub.Subscribe("s", "a/b");
    JoinFirst("a/b");
    OneCleanupFor("a/b");
    hub.Disconnect("s");
    CleanupOfNestedName();
    outcome := hub.RunCleanup();
    clients, open := hub.listening, hub.owner;
  }

  /** "s" subscribes to "a" and "t" to "a/b": one client for each. */
  method NestedSubscribers() returns (hub: Hub)
    ensures fresh(hub) && hub.Valid()
    ensures hub.roomsOf == map["s" := ["", RoomKey("a")], "t" := ["", RoomKey("a/b")]]
    ensures hub.listening == map["a" := 0, "a/b" := 1] && hub.pending == []
  {
    hub := new Hub(true);
    var greetS := hub.Connect("s");
    var greetT := hub.Connect("t");
    hub.Subscribe("s", "a");
    JoinFirst("a");
    assert hub.listening == map["a" := 0];
    hub.Subscribe("t", "a/b");
    JoinFirst("a/b");
  }

  /**
   * From there "t" disconnects: its cleanup ends the client of "a" while
   * "s" is still in that room, and the "a/b" client stays open.
   */
  method NestedCleanupEndsParent() returns (outcome: CleanupOutcome, stillIn: set<SocketId>, clients: map<string, Handle>)
    ensures outcome == TornDown("a", 0)
    ensures stillIn == {"s"}
    ensures clients == map["a/b" := 1]
  {
    var hub := NestedSubscribers();
    OneCleanupFor("a/b");
    hub.Disconnect("t");
    assert hub.roomsOf == map["s" := ["", RoomKey("a")]];
    CleanupOfNestedName();
    outcome := hub.RunCleanup();
    assert RoomKey("a") in hub.roomsOf["s"];
    stillIn := hub.Room(RoomKey("a"));
    clients := hub.listening;
  }
}
