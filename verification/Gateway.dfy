/** The WebSocket gateway: connections, the user and channel indexes, broadcast, and pruning. */
module Gateway {
  import opened Options
  import opened Channels
  import opened Keys
  import opened Subscriptions
  import RateWindow

  const BUFFER_LIMIT: nat := 1048576

  datatype Socket = Connecting | Open | Closing | Closed

  datatype Message =
    | Subscribed(channel: string)
    | Unsubscribed(channel: string)
    | Error(code: Code)
    | RateLimited
    | Snapshot(channel: string)
    | Event(channel: string, data: int)
    | LoggedIn(user: string)

  /** What sending depends on and changes of a connection. */
  datatype Outlet = Outlet(socket: Socket, buffered: nat, sent: seq<Message>)
  {
    /** Open but too far behind: a message handed to it closes it instead. */
    predicate Slow() {
      socket == Open && buffered > BUFFER_LIMIT
    }

    /** Open with room in its buffer: a message handed to it goes out. */
    predicate Reachable() {
      socket == Open && buffered <= BUFFER_LIMIT
    }

    function Offered(message: Message): Outlet {
      if Slow() then this.(socket := Closing)
      else if Reachable() then this.(sent := sent + [message])
      else this
    }
  }

  function OfferedTo(views: map<string, Outlet>, ids: set<string>, message: Message): map<string, Outlet> {
    map id | id in views :: if id in ids then views[id].Offered(message) else views[id]
  }

  function SlowAmong(views: map<string, Outlet>, ids: set<string>): set<string> {
    set id | id in ids && id in views && views[id].Slow()
  }

  lemma OfferNext(views: map<string, Outlet>, ids: set<string>, id: string, message: Message)
    requires id in views && id !in ids
    ensures id in OfferedTo(views, ids, message) && OfferedTo(views, ids, message)[id] == views[id]
    ensures OfferedTo(views, ids + {id}, message) == OfferedTo(views, ids, message)[id := views[id].Offered(message)]
    ensures SlowAmong(views, ids + {id}) ==
      if views[id].Slow() then SlowAmong(views, ids) + {id} else SlowAmong(views, ids)
  {
  }

  function Terminated(views: map<string, Outlet>, ids: set<string>): map<string, Outlet> {
    map id | id in views :: if id in ids then views[id].(socket := Closed) else views[id]
  }

  /** Of the visited connections, those not heard from for more than two intervals. */
  function DeadAmong(beats: map<string, int>, visited: set<string>, now: int, interval: int): set<string> {
    set id | id in visited && id in beats && now - beats[id] > interval * 2
  }

  lemma NextDead(beats: map<string, int>, visited: set<string>, id: string, now: int, interval: int)
    requires id in beats
    ensures DeadAmong(beats, visited + {id}, now, interval)
         == if now - beats[id] > interval * 2 then DeadAmong(beats, visited, now, interval) + {id}
            else DeadAmong(beats, visited, now, interval)
  {
  }

  lemma DeadAreVisited(beats: map<string, int>, visited: set<string>, all: set<string>, now: int, interval: int)
    requires visited <= all && (all - DeadAmong(beats, visited, now, interval)) - visited == {}
    ensures visited == all
  {
    assert DeadAmong(beats, visited, now, interval) <= visited;
    assert forall id ::
      id in all && id !in visited ==> id in (all - DeadAmong(beats, visited, now, interval)) - visited;
  }

  /** Whom sendToUser addresses: of the connections filed under the user, the live ones that hold the channel. */
  function Addressed(filed: set<string>, subs: map<string, set<string>>, channel: string): set<string> {
    set id | id in filed && id in subs && channel in subs[id]
  }

  lemma AllVisited(filed: set<string>, left: set<string>, visited: set<string>)
    requires visited <= filed && filed - visited <= left && left - visited == {}
    ensures visited == filed
  {
    assert forall id :: id in filed && id !in visited ==> id in left - visited;
  }

  lemma AddressedAre(filed: set<string>, subs: map<string, set<string>>, channel: string)
    ensures Addressed(filed, subs, channel) == set id | id in filed && id in subs && channel in subs[id]
  {
  }

  lemma AddressNone(subs: map<string, set<string>>, channel: string)
    ensures Addressed({}, subs, channel) == {}
  {
  }

  lemma AddressNext(subs: map<string, set<string>>, visited: set<string>, id: string, channel: string)
    requires id !in visited
    ensures id !in Addressed(visited, subs, channel)
    ensures Addressed(visited + {id}, subs, channel)
         == if id in subs && channel in subs[id]
            then Addressed(visited, subs, channel) + {id} else Addressed(visited, subs, channel)
  {
  }

  lemma OfferNone(views: map<string, Outlet>, message: Message)
    ensures OfferedTo(views, {}, message) == views && SlowAmong(views, {}) == {}
  {
  }

  lemma SlowAreOffered(views: map<string, Outlet>, offered: set<string>)
    ensures SlowAmong(views, offered) <= offered
  {
  }

  lemma OnlySlowAreLeft(views: map<string, Outlet>, visited: set<string>, subscribers: set<string>)
    requires visited <= subscribers && (subscribers - SlowAmong(views, visited)) - visited == {}
    ensures visited == subscribers
  {
    assert SlowAmong(views, visited) <= visited;
    assert forall id ::
      id in subscribers && id !in visited ==> id in (subscribers - SlowAmong(views, visited)) - visited;
  }

  class Client {
    const id: string
    var socket: Socket
    var buffered: nat
    var userId: Option<string>
    var subscriptions: set<string>
    var lastHeartbeat: int
    var timestamps: seq<int>
    var sent: seq<Message>

    constructor (id: string, now: int)
      ensures this.id == id && socket == Open && buffered == 0 && userId == None
      ensures subscriptions == {} && lastHeartbeat == now && timestamps == [] && sent == []
    {
      this.id := id;
      socket, buffered, userId, subscriptions := Open, 0, None, {};
      lastHeartbeat, timestamps, sent := now, [], [];
    }

    function View(): Outlet
      reads `socket, `buffered, `sent
    {
      Outlet(socket, buffered, sent)
    }

    /** The rate limit of handleClientMessage. */
    method Admit(now: int, rate: nat) returns (admitted: bool)
      modifies this`timestamps
      ensures admitted == RateWindow.Admits(old(timestamps), now, rate)
      ensures timestamps == RateWindow.Next(old(timestamps), now, rate)
    {
      timestamps := RateWindow.Recent(timestamps, now);
      admitted := |timestamps| < rate;
      if admitted {
        timestamps := timestamps + [now];
      }
    }
  }

  /** The three indexes at one moment, as whom every connection was logged in, and what its socket was like. */
  datatype Moment = Moment(
    clients: map<string, Client>,
    channels: Index,
    filed: Index,
    users: map<string, Option<string>>,
    views: map<string, Outlet>)
  {
    /** Every connection sits under its own id, and still is logged in as it was. */
    ghost predicate Consistent()
      reads clients.Values`userId
    {
      && users.Keys == clients.Keys == views.Keys
      && forall id :: id in clients ==> clients[id].id == id && clients[id].userId == users[id]
    }
  }

  /** for (const ch of subscriptions): unfile the connection from each, in some order. */
  method Unfile(index: Index, channels: set<string>, id: string) returns (next: Index, ghost order: seq<string>)
    ensures forall ch :: ch in order <==> ch in channels
    ensures next == WithoutAll(index, order, id)
  {
    next, order := index, [];
    var rest := channels;
    while rest != {}
      invariant rest <= channels && forall ch :: ch in order <==> ch in channels - rest
      invariant next == WithoutAll(index, order, id)
      decreases rest
    {
      var ch :| ch in rest;
      assert (order + [ch])[..|order|] == order;
      next, order, rest := Without(next, ch, id), order + [ch], rest - {ch};
    }
  }

  lemma DropMore(all: map<string, Client>, gone: set<string>, id: string)
    ensures (all - gone) - {id} == all - (gone + {id})
  {
  }

  /** Private channels are held by logged-in connections only, and only the four that exist. */
  ghost predicate Entitled(subs: map<string, set<string>>, users: map<string, Option<string>>) {
    forall id, ch :: id in subs && ch in subs[id] && Private(ch) ==>
      id in users && users[id].Some? && PrivateName(ch)
  }

  lemma ForgottenIsEntitled(subs: map<string, set<string>>, users: map<string, Option<string>>, id: string)
    requires Entitled(subs, users)
    ensures Entitled(subs - {id}, users - {id})
  {
    hide Private, PrivateName;
  }

  lemma NewIsEntitled(subs: map<string, set<string>>, users: map<string, Option<string>>, id: string)
    requires Entitled(subs, users) && id !in subs
    ensures Entitled(subs[id := {}], users[id := None])
  {
    hide Private, PrivateName;
  }

  lemma LoggedInIsEntitled(subs: map<string, set<string>>, users: map<string, Option<string>>, id: string, user: string)
    requires Entitled(subs, users)
    ensures Entitled(subs, users[id := Some(user)])
  {
    hide Private, PrivateName;
  }

  lemma HoldingIsEntitled(subs: map<string, set<string>>, users: map<string, Option<string>>, id: string,
                          names: set<string>)
    requires Entitled(subs, users) && id in subs && id in users
    requires forall ch :: ch in names && ch !in subs[id] && Private(ch) ==> users[id].Some? && PrivateName(ch)
    ensures Entitled(subs[id := names], users)
  {
    hide Private, PrivateName;
  }

  lemma RevokedIsEntitled(subs: map<string, set<string>>, users: map<string, Option<string>>, id: string, ch: string)
    requires Entitled(subs, users)
    ensures Entitled(if id in subs then subs[id := subs[id] - {ch}] else subs, users)
  {
    hide Private, PrivateName;
  }

  class WebSocketGateway {
    var clients: map<string, Client>
    var userConnections: Index
    var channelSubscribers: Index
    const maxSubscriptions: nat

    /** What every live connection is subscribed to */
    ghost function Subs(): map<string, set<string>>
      reads `clients, clients.Values`subscriptions
    {
      map id | id in clients :: clients[id].subscriptions
    }

    /** As which user every live connection is logged in */
    ghost function Users(): map<string, Option<string>>
      reads `clients, clients.Values`userId
    {
      map id | id in clients :: clients[id].userId
    }

    ghost predicate Capped()
      reads `clients, clients.Values`subscriptions
    {
      forall id :: id in clients ==> |clients[id].subscriptions| <= maxSubscriptions
    }

    ghost predicate Keyed()
      reads `clients
    {
      forall id :: id in clients ==> clients[id].id == id
    }

    ghost predicate Valid()
      reads this, clients.Values`subscriptions, clients.Values`userId
    {
      && Keyed() && Capped() && Agree(Subs(), channelSubscribers) && Filed(Users(), userConnections)
      && Entitled(Subs(), Users())
    }

    /** A handler is bound to the connection object: it may be gone, but its id is not another's. */
    ghost predicate Owns(client: Client)
      reads `clients
    {
      client.id in clients ==> clients[client.id] == client
    }

    constructor (maxSubscriptions: nat)
      ensures Valid() && clients == map[] && this.maxSubscriptions == maxSubscriptions
    {
      this.maxSubscriptions := maxSubscriptions;
      clients, userConnections, channelSubscribers := map[], map[], map[];
    }

    /** handleNewConnection, with a connection id that is new */
    method Connect(id: string, now: int) returns (client: Client)
      requires Valid() && id !in clients
      modifies this`clients
      ensures Valid() && fresh(client) && clients == old(clients)[id := client]
      ensures client.id == id && client.socket == Open && client.subscriptions == {} && client.userId == None
      ensures client.lastHeartbeat == now && client.timestamps == [] && client.sent == []
    {
      hide Agree, Filed, Entitled;
      client := new Client(id, now);
      ghost var subs, users := Subs(), Users();
      ConnectAgrees(subs, users, channelSubscribers, userConnections, id);
      NewIsEntitled(subs, users, id);
      clients := clients[id := client];
      assert Subs() == subs[id := {}] && Users() == users[id := None];
    }

    /** this.clients.delete(client.id) */
    method Forget(client: Client)
      requires Keyed() && Capped() && Owns(client)
      modifies this`clients
      ensures clients == old(clients) - {client.id} && Keyed() && Capped()
      ensures Subs() == old(Subs()) - {client.id} && Users() == old(Users()) - {client.id}
    {
      ghost var users := Users();
      clients := clients - {client.id};
      assert Users().Keys == (users - {client.id}).Keys;
      assert forall id :: id in clients ==> Users()[id] == users[id];
    }

    /** The three indexes after a disconnect; the connection object itself is not touched. */
    method Unlink(client: Client)
      requires Valid() && Owns(client)
      modifies this`clients, this`userConnections, this`channelSubscribers
      ensures Valid() && clients == old(clients) - {client.id}
      ensures forall ch :: Members(channelSubscribers, ch) == Members(old(channelSubscribers), ch) - {client.id}
      ensures userConnections == LoggedOut(old(userConnections), client.userId, client.id)
    {
      hide Agree, Filed, Entitled, Members, Without, WithoutAll, LoggedOut;
      hide WebSocketGateway.Users, WebSocketGateway.Capped;
      ghost var subs, users, index, order := Subs(), Users(), channelSubscribers, [];
      ForgottenIsEntitled(subs, users, client.id);
      Forget(client);
      LogoutFiles(users, userConnections, client.userId, client.id);
      userConnections := LoggedOut(userConnections, client.userId, client.id);
      channelSubscribers, order := Unfile(channelSubscribers, client.subscriptions, client.id);
      DisconnectAgrees(subs, index, order, client.id);
      assert Agree(Subs(), channelSubscribers);
      assert Filed(Users(), userConnections);
    }

    /**
     handleClientDisconnect: the connection leaves the connections, all channels and the set of the
     user it is logged in as, and nothing else changes.  It leaves every user's set exactly when it
     was filed under no other user.  It may be called again for a connection that is gone.
     */
    method Disconnect(client: Client)
      requires Valid() && Owns(client)
      modifies this`clients, this`userConnections, this`channelSubscribers, client`socket
      ensures Valid() && clients == old(clients) - {client.id}
      ensures forall ch :: Members(channelSubscribers, ch) == Members(old(channelSubscribers), ch) - {client.id}
      ensures userConnections == LoggedOut(old(userConnections), client.userId, client.id)
      ensures (forall u :: client.id !in Members(userConnections, u))
         <==> (forall u :: client.id in Members(old(userConnections), u) ==> client.userId == Some(u))
      ensures client.socket ==
        if old(client.socket).Open? || old(client.socket).Connecting? then Closed else old(client.socket)
    {
      hide Agree, Filed, Entitled, Members, LoggedOut;
      UserSetsHaveNoEmpty();
      LoggedOutEverywhereIff(userConnections, client.userId, client.id);
      Unlink(client);
      if client.socket.Open? || client.socket.Connecting? {
        client.socket := Closed;
      }
    }

    /** sendMessage: goes out, is swallowed by a socket that is not open, or drops a slow connection. */
    method Send(client: Client, message: Message)
      requires Valid() && Owns(client)
      modifies this`clients, this`userConnections, this`channelSubscribers, client`socket, client`sent
      ensures Valid() && client.View() == old(client.View()).Offered(message)
      ensures old(client.View()).Slow() ==>
        && clients == old(clients) - {client.id}
        && userConnections == LoggedOut(old(userConnections), client.userId, client.id)
        && forall ch :: Members(channelSubscribers, ch) == Members(old(channelSubscribers), ch) - {client.id}
      ensures !old(client.View()).Slow() ==>
        && clients == old(clients)
        && userConnections == old(userConnections)
        && channelSubscribers == old(channelSubscribers)
      ensures old(client.socket) == Open && client.buffered <= 1_048_576 ==>
        client.socket == Open && client.sent == old(client.sent) + [message]
      ensures old(client.socket) == Open && client.buffered > 1_048_576 ==>
        client.socket == Closing && client.sent == old(client.sent) && client.id !in clients
      ensures old(client.socket) != Open ==> client.socket == old(client.socket) && client.sent == old(client.sent)
    {
      hide Agree, Filed, Entitled, LoggedOut, Members;
      if client.socket != Open {
        return;
      }
      if client.buffered > BUFFER_LIMIT {
        client.socket := Closing;
        Disconnect(client);
        return;
      }
      client.sent := client.sent + [message];
    }

    /** What the gateway holds at one moment, and what its connections say. */
    ghost function Here(): Moment
      reads `clients, `channelSubscribers, `userConnections
      reads clients.Values`userId, clients.Values`socket, clients.Values`buffered, clients.Values`sent
    {
      Moment(clients, channelSubscribers, userConnections, Users(), Views(clients))
    }

    /** Since `m` exactly the connections in `dropped` have left: the connections, all channels, their users' sets. */
    ghost predicate DroppedSince(m: Moment, dropped: set<string>)
      reads `clients, `channelSubscribers, `userConnections
    {
      && clients == m.clients - dropped
      && (forall ch :: Members(channelSubscribers, ch) == Members(m.channels, ch) - dropped)
      && (forall u :: Members(userConnections, u) == Members(m.filed, u) - Leaving(m.users, dropped, u))
    }

    /**
     How far a loop that sends to many has come since it began at `m`: the connections in
     `offered` have each been offered the message once and no other has; of those offered, the
     slow ones have left the connections, all channels and their users' sets.
     */
    ghost predicate Progress(m: Moment, offered: set<string>, message: Message)
      reads `clients, `channelSubscribers, `userConnections
      reads m.clients.Values`socket, m.clients.Values`buffered, m.clients.Values`sent
    {
      DroppedSince(m, SlowAmong(m.views, offered)) && Views(m.clients) == OfferedTo(m.views, offered, message)
    }

    /**
     Connection by connection: of those addressed, an open one with room in its buffer has the message
     as its last one, an open one without is gone, and no other connection notices anything.
     */
    ghost predicate Arrived(m: Moment, addressed: set<string>, message: Message)
      reads `clients, m.clients.Values`sent
    {
      forall id :: id in m.clients && id in m.views ==>
        var v := m.views[id];
        && m.clients[id].sent
           == v.sent + (if id in addressed && v.socket == Open && v.buffered <= 1_048_576 then [message] else [])
        && (id in clients <==> !(id in addressed && v.socket == Open && v.buffered > 1_048_576))
    }

    lemma ProgressArrives(m: Moment, addressed: set<string>, message: Message)
      requires Progress(m, addressed, message) && m.Consistent()
      ensures Arrived(m, addressed, message)
    {
      hide Members, Leaving;
      forall id | id in m.clients
        ensures m.clients[id].View() == if id in addressed then m.views[id].Offered(message) else m.views[id]
      {
        assert Views(m.clients)[id] == OfferedTo(m.views, addressed, message)[id];
      }
    }

    lemma ProgressStarts(message: Message)
      requires Valid()
      ensures Progress(Here(), {}, message) && Here().Consistent()
    {
      hide Agree, Filed, Members;
      OfferNone(Views(clients), message);
      LeavingNone(Users());
    }

    /** A further connection dropped. */
    lemma DropsNext(m: Moment, gone: set<string>, filed: Index, channels: Index, id: string)
      requires NoEmpty(filed) && id in m.users
      requires forall ch :: Members(channels, ch) == Members(m.channels, ch) - gone
      requires forall u :: Members(filed, u) == Members(m.filed, u) - Leaving(m.users, gone, u)
      requires clients == (m.clients - gone) - {id}
      requires userConnections == LoggedOut(filed, m.users[id], id)
      requires forall ch :: Members(channelSubscribers, ch) == Members(channels, ch) - {id}
      ensures DroppedSince(m, gone + {id})
    {
      hide Members, LoggedOut, Leaving;
      LeavingNext(m.users, m.filed, filed, gone, id);
      DropMore(m.clients, gone, id);
    }

    /** Sending to one connection, as it shows among all of them. */
    method SendTo(id: string, message: Message, ghost all: map<string, Client>)
      requires Valid() && id in clients && id in all && clients[id] == all[id] && id in Views(all)
      requires forall other :: other in all ==> all[other].id == other
      modifies this`clients, this`userConnections, this`channelSubscribers, all.Values`socket, all.Values`sent
      ensures Valid() && Views(all) == old(Views(all))[id := old(Views(all)[id]).Offered(message)]
      ensures old(Views(all)[id]).Slow() ==>
        && clients == old(clients) - {id}
        && userConnections == LoggedOut(old(userConnections), all[id].userId, id)
        && forall ch :: Members(channelSubscribers, ch) == Members(old(channelSubscribers), ch) - {id}
      ensures !old(Views(all)[id]).Slow() ==>
        && clients == old(clients) && userConnections == old(userConnections)
        && channelSubscribers == old(channelSubscribers)
    {
      hide Agree, Filed, Entitled, LoggedOut, Members;
      Send(clients[id], message);
    }

    /** One connection is offered the message. */
    method Visit(id: string, message: Message, ghost m: Moment, ghost offered: set<string>)
      requires Valid() && Progress(m, offered, message) && m.Consistent() && id in m.clients && id !in offered
      modifies this`clients, this`userConnections, this`channelSubscribers
      modifies m.clients.Values`socket, m.clients.Values`sent
      ensures Valid() && Progress(m, offered + {id}, message) && m.Consistent()
    {
      hide Agree, Entitled, LoggedOut, Members, OfferedTo, SlowAmong, Views, Leaving, WebSocketGateway.Valid;
      ghost var gone, filed, channels := SlowAmong(m.views, offered), userConnections, channelSubscribers;
      UserSetsHaveNoEmpty();
      SlowAreOffered(m.views, offered);
      OfferNext(m.views, offered, id, message);
      SendTo(id, message, m.clients);
      if m.views[id].Slow() {
        DropsNext(m, gone, filed, channels, id);
      }
    }

    lemma UserSetsHaveNoEmpty()
      requires Valid()
      ensures NoEmpty(userConnections)
    {
      FiledHasNoEmpty(Users(), userConnections);
    }

    lemma NoneLeft(m: Moment, visited: set<string>, message: Message, channel: string)
      requires Progress(m, visited, message) && visited <= Members(m.channels, channel)
      requires Members(channelSubscribers, channel) - visited == {}
      ensures visited == Members(m.channels, channel)
    {
      hide OfferedTo, Members;
      OnlySlowAreLeft(m.views, visited, Members(m.channels, channel));
    }

    lemma HeldIsFiled(client: Client)
      requires Valid() && client.id in clients && Owns(client)
      ensures NoEmpty(channelSubscribers)
      ensures forall ch :: client.id in Members(channelSubscribers, ch) <==> ch in client.subscriptions
    {
      hide Members;
      assert Subs()[client.id] == client.subscriptions;
    }

    lemma NoEmptySets()
      requires Valid()
      ensures NoEmpty(channelSubscribers)
    {
    }

    lemma SubscribersAreLive(channel: string)
      requires Valid()
      ensures Members(channelSubscribers, channel) <= clients.Keys
    {
      MembersAreLive(Subs(), channelSubscribers, channel);
    }

    lemma MemberWasMember(m: Moment, offered: set<string>, message: Message, channel: string, id: string)
      requires Progress(m, offered, message) && id in Members(channelSubscribers, channel)
      ensures id in Members(m.channels, channel)
    {
      hide Members, OfferedTo, SlowAmong;
    }

    /**
     broadcastToChannel: every subscriber is offered the message once and nobody else is;
     subscribers that are too far behind leave the connections, all channels and their users' sets,
     although the set being iterated over is one of them.
     */
    method Broadcast(channel: string, message: Message)
      requires Valid()
      modifies this`clients, this`userConnections, this`channelSubscribers, clients.Values`socket, clients.Values`sent
      ensures Valid()
      ensures Progress(old(Here()), Members(old(channelSubscribers), channel), message)
      ensures Arrived(old(Here()), Members(old(channelSubscribers), channel), message)
    {
      hide Members, WebSocketGateway.Valid, WebSocketGateway.Progress, WebSocketGateway.Arrived, Moment.Consistent;
      ghost var m, subscribers := Here(), Members(channelSubscribers, channel);
      SubscribersAreLive(channel);
      ProgressStarts(message);
      var visited := {};
      while Members(channelSubscribers, channel) - visited != {}
        invariant Valid() && visited <= subscribers <= m.clients.Keys
        invariant Progress(m, visited, message) && m.Consistent()
        decreases subscribers - visited
      {
        var id :| id in Members(channelSubscribers, channel) - visited;
        SubscribersAreLive(channel);
        MemberWasMember(m, visited, message, channel, id);
        if id in clients {
          Visit(id, message, m, visited);
        }
        visited := visited + {id};
      }
      NoneLeft(m, visited, message, channel);
      ProgressArrives(m, subscribers, message);
    }

    /** What every connection was subscribed to when the loop began, as it still says. */
    ghost predicate Holds(all: map<string, Client>, subs: map<string, set<string>>)
      reads all.Values`subscriptions
    {
      all.Keys == subs.Keys && forall id :: id in all ==> all[id].subscriptions == subs[id]
    }

    lemma HoldsNow()
      ensures Holds(clients, Subs())
    {
    }

    /** What is not offered yet is as it was. */
    lemma Unvisited(m: Moment, offered: set<string>, message: Message, id: string)
      requires Progress(m, offered, message) && id !in offered
      ensures id in clients <==> id in m.clients
      ensures id in m.clients ==> clients[id] == m.clients[id]
    {
      hide OfferedTo, Members, Leaving;
    }

    /** One turn of sendToUser's loop: a connection that is gone or lacks the channel is passed over. */
    method Address(id: string, channel: string, message: Message, ghost m: Moment, ghost subs: map<string, set<string>>,
                   ghost visited: set<string>)
      requires Valid() && Progress(m, Addressed(visited, subs, channel), message) && m.Consistent()
      requires id !in visited && Holds(m.clients, subs)
      modifies this`clients, this`userConnections, this`channelSubscribers
      modifies m.clients.Values`socket, m.clients.Values`sent
      ensures Valid() && Progress(m, Addressed(visited + {id}, subs, channel), message) && m.Consistent()
    {
      hide Addressed, WebSocketGateway.Valid, WebSocketGateway.Progress, Moment.Consistent;
      AddressNext(subs, visited, id, channel);
      Unvisited(m, Addressed(visited, subs, channel), message, id);
      if id in clients && channel in clients[id].subscriptions {
        Visit(id, message, m, Addressed(visited, subs, channel));
      }
    }

    /** Only visited connections have left the user's set. */
    lemma StillFiled(m: Moment, subs: map<string, set<string>>, visited: set<string>, channel: string,
                     message: Message, user: string)
      requires Progress(m, Addressed(visited, subs, channel), message)
      ensures Members(m.filed, user) - visited <= Members(userConnections, user) <= Members(m.filed, user)
    {
      hide Members, OfferedTo;
    }

    /**
     sendToUser: the live connections filed under the user that hold the channel are each offered
     the message once, over a set from which those it drops are removed as it goes.
     */
    method SendToUser(user: string, channel: string, message: Message)
      requires Valid()
      modifies this`clients, this`userConnections, this`channelSubscribers, clients.Values`socket, clients.Values`sent
      ensures Valid()
      ensures Progress(old(Here()), Addressed(Members(old(userConnections), user), old(Subs()), channel), message)
      ensures var subs := old(Subs());
        Arrived(old(Here()), (set id | id in Members(old(userConnections), user) && id in subs && channel in subs[id]),
                message)
    {
      AddressedAre(Members(userConnections, user), Subs(), channel);
      hide Members, Addressed, WebSocketGateway.Valid, WebSocketGateway.Progress, WebSocketGateway.Holds;
      hide WebSocketGateway.Subs, WebSocketGateway.Users, WebSocketGateway.Arrived, Views, Moment.Consistent;
      ghost var m, subs, filed := Here(), Subs(), Members(userConnections, user);
      HoldsNow();
      ProgressStarts(message);
      AddressNone(subs, channel);
      var visited := {};
      while Members(userConnections, user) - visited != {}
        invariant Valid() && visited <= filed && m.Consistent()
        invariant filed - visited <= Members(userConnections, user) <= filed
        invariant Progress(m, Addressed(visited, subs, channel), message)
        decreases filed - visited
      {
        var id :| id in Members(userConnections, user) - visited;
        Address(id, channel, message, m, subs, visited);
        visited := visited + {id};
        StillFiled(m, subs, visited, channel, message, user);
      }
      AllVisited(filed, Members(userConnections, user), visited);
      ProgressArrives(m, Addressed(filed, subs, channel), message);
    }

    /** client.subscriptions = names */
    method Hold(client: Client, names: set<string>)
      requires Keyed() && Capped() && Owns(client) && (client.id in clients ==> |names| <= maxSubscriptions)
      modifies client`subscriptions
      ensures client.subscriptions == names && Capped()
      ensures client.id in clients ==> old(Subs())[client.id] == old(client.subscriptions)
      ensures Subs() == if client.id in clients then old(Subs())[client.id := names] else old(Subs())
    {
      client.subscriptions := names;
    }

    /** client.userId = user */
    method LogIn(client: Client, user: string)
      requires Keyed() && Owns(client)
      modifies client`userId
      ensures client.userId == Some(user)
      ensures Users() == if client.id in clients then old(Users())[client.id := Some(user)] else old(Users())
    {
      ghost var users := Users();
      client.userId := Some(user);
    }

    /** handleAuthentication with a valid session: an earlier user's entry for the connection stays. */
    method Authenticate(client: Client, user: string)
      requires Valid() && Owns(client)
      modifies this`clients, this`userConnections, this`channelSubscribers, client`userId, client`socket, client`sent
      ensures Valid() && client.userId == Some(user)
      ensures client.View() == old(client.View()).Offered(LoggedIn(user))
      ensures !old(client.View()).Slow() ==>
        && clients == old(clients) && channelSubscribers == old(channelSubscribers)
        && userConnections == With(old(userConnections), user, client.id)
      ensures old(client.View()).Slow() ==>
        && clients == old(clients) - {client.id}
        && userConnections == LoggedOut(With(old(userConnections), user, client.id), Some(user), client.id)
        && forall ch :: Members(channelSubscribers, ch) == Members(old(channelSubscribers), ch) - {client.id}
    {
      hide Agree, Filed, Entitled, LoggedOut, Members, With;
      ghost var users := Users();
      LoggedInIsEntitled(Subs(), users, client.id, user);
      LoginFiles(users, userConnections, user, client.id);
      LogIn(client, user);
      userConnections := With(userConnections, user, client.id);
      Send(client, LoggedIn(user));
    }

    /** A checked channel is added to the connection and to the index, together. */
    method Register(client: Client, name: string)
      requires Valid() && client.id in clients && Owns(client) && |client.subscriptions| < maxSubscriptions
      requires Private(name) ==> client.userId.Some? && PrivateName(name)
      modifies this`channelSubscribers, client`subscriptions
      ensures Valid() && client.subscriptions == old(client.subscriptions) + {name}
      ensures channelSubscribers == With(old(channelSubscribers), name, client.id)
    {
      hide Agree, Filed, Entitled, With, Private, PrivateName;
      ghost var subs := Subs();
      HoldingIsEntitled(subs, Users(), client.id, client.subscriptions + {name});
      SubscribeAgrees(subs, channelSubscribers, name, client.id);
      Hold(client, client.subscriptions + {name});
      channelSubscribers := With(channelSubscribers, name, client.id);
    }

    /** What answers a subscription, in order. */
    function Replies(channel: string, held: set<string>, authenticated: bool, ticker: Option<int>,
                     mark: int): seq<Message> {
      if channel in held then [Subscribed(channel)]
      else if |held| >= maxSubscriptions then [Error(MaxSubscriptionsReached)]
      else match Parse(channel, authenticated)
        case Invalid(code) => [Error(code)]
        case Valid(name) => [Subscribed(name)] + FirstData(name, ticker, mark)
    }

    method SendAll(client: Client, messages: seq<Message>)
      requires Valid() && Owns(client)
      modifies this`clients, this`userConnections, this`channelSubscribers, client`socket, client`sent
      ensures Valid() && client.View() == OfferedAll(old(client.View()), messages)
      ensures var dropped := if messages != [] && old(client.View()).Slow() then {client.id} else {};
        && clients == old(clients) - dropped
        && forall ch :: Members(channelSubscribers, ch) == Members(old(channelSubscribers), ch) - dropped
      ensures userConnections == if messages != [] && old(client.View()).Slow()
                                 then LoggedOut(old(userConnections), client.userId, client.id)
                                 else old(userConnections)
    {
      hide Agree, Filed, Entitled, LoggedOut, Members;
      for i := 0 to |messages|
        invariant Valid() && Owns(client) && client.View() == OfferedAll(old(client.View()), messages[..i])
        invariant clients == old(clients) - if i > 0 && old(client.View()).Slow() then {client.id} else {}
        invariant userConnections == if i > 0 && old(client.View()).Slow()
                                     then LoggedOut(old(userConnections), client.userId, client.id)
                                     else old(userConnections)
        invariant forall ch ::
          Members(channelSubscribers, ch)
          == Members(old(channelSubscribers), ch) - if i > 0 && old(client.View()).Slow() then {client.id} else {}
      {
        OfferedOnce(old(client.View()), messages[..i]);
        assert messages[..i + 1][..i] == messages[..i];
        Send(client, messages[i]);
      }
      assert messages[..|messages|] == messages;
    }

    lemma SomeReply(channel: string, held: set<string>, authenticated: bool, ticker: Option<int>, mark: int)
      ensures Replies(channel, held, authenticated, ticker, mark) != []
    {
    }

    /** The checks of a subscription, and its effect when they pass. */
    method Grant(client: Client, channel: string)
      requires Valid() && client.id in clients && Owns(client)
      modifies this`channelSubscribers, client`subscriptions
      ensures Valid()
      ensures client.subscriptions
        == old(client.subscriptions) + old(Granted(channel, client.subscriptions, client.userId.Some?))
      ensures forall ch ::
        Members(channelSubscribers, ch) == Members(old(channelSubscribers), ch)
        + if ch in old(Granted(channel, client.subscriptions, client.userId.Some?)) then {client.id} else {}
    {
      hide Agree, Filed, Entitled, Members, With, Parse, Private, PrivateName;
      if channel !in client.subscriptions && |client.subscriptions| < maxSubscriptions {
        var parsed := Parse(channel, client.userId.Some?);
        if parsed.Valid? {
          if Private(parsed.channel) {
            PrivateNeedsLogin(channel, client.userId.Some?, parsed.channel);
          }
          AgreesHasNoEmpty(Subs(), channelSubscribers);
          MembersAfter(channelSubscribers, parsed.channel, client.id);
          Register(client, parsed.channel);
        }
      }
    }

    /**
     handleSubscribe, for a live connection.  The connection holds the channel's canonical name
     afterwards exactly when it did before or the request passes the checks; the answer may drop it.
     */
    method Subscribe(client: Client, channel: string, ticker: Option<int>, mark: int)
      requires Valid() && client.id in clients && Owns(client)
      modifies this`clients, this`userConnections, this`channelSubscribers
      modifies client`subscriptions, client`socket, client`sent
      ensures Valid()
      ensures client.subscriptions
        == old(client.subscriptions) + old(Granted(channel, client.subscriptions, client.userId.Some?))
      ensures client.View()
           == OfferedAll(old(client.View()),
                         old(Replies(channel, client.subscriptions, client.userId.Some?, ticker, mark)))
      ensures var dropped := if old(client.View()).Slow() then {client.id} else {};
        && clients == old(clients) - dropped
        && forall ch :: Members(channelSubscribers, ch)
             == (Members(old(channelSubscribers), ch)
                 + if ch in old(Granted(channel, client.subscriptions, client.userId.Some?))
                   then {client.id} else {}) - dropped
      ensures exists told ::
        && SubscriptionGoes(channel, client.userId.Some?, ticker, mark,
                            old(client.subscriptions), client.subscriptions, told)
        && client.View() == OfferedAll(old(client.View()), told)
      ensures userConnections == if old(client.View()).Slow()
                                 then LoggedOut(old(userConnections), client.userId, client.id)
                                 else old(userConnections)
    {
      hide Agree, Filed, Entitled, LoggedOut, Members, Parse, WebSocketGateway.Granted, WebSocketGateway.Replies,
           WebSocketGateway.Valid, WebSocketGateway.SubscriptionGoes;
      var replies := Replies(channel, client.subscriptions, client.userId.Some?, ticker, mark);
      SomeReply(channel, client.subscriptions, client.userId.Some?, ticker, mark);
      GrantedAndReplied(channel, client.subscriptions, client.userId.Some?, ticker, mark);
      Grant(client, channel);
      SendAll(client, replies);
    }

    /**
     The possible courses of a subscription: held already, over the cap, refused for a reason, or
     registered under a name; what the connection holds afterwards and what it is told.
     */
    ghost predicate SubscriptionGoes(channel: string, loggedIn: bool, ticker: Option<int>, mark: int,
                                     held: set<string>, after: set<string>, told: seq<Message>) {
      if channel in held then after == held && told == [Subscribed(channel)]
      else if |held| >= maxSubscriptions then after == held && told == [Error(MaxSubscriptionsReached)]
      else
        && (forall code :: Refused(channel, loggedIn, code) ==> after == held && told == [Error(code)])
        && (forall name :: Registers(channel, loggedIn, name) ==>
              after == held + {name} && told == [Subscribed(name)] + FirstData(name, ticker, mark))
        && ((exists code :: Refused(channel, loggedIn, code)) || (exists name :: Registers(channel, loggedIn, name)))
    }

    lemma GrantedAndReplied(channel: string, held: set<string>, loggedIn: bool, ticker: Option<int>, mark: int)
      ensures SubscriptionGoes(channel, loggedIn, ticker, mark, held, held + Granted(channel, held, loggedIn),
                               Replies(channel, held, loggedIn, ticker, mark))
    {
      hide Parse, Refused, Registers, FirstData;
      var parsed := Parse(channel, loggedIn);
      forall code ensures parsed == Invalid(code) <==> Refused(channel, loggedIn, code) {
        RefusedIff(channel, loggedIn, code);
      }
      forall name ensures parsed == Parsed.Valid(name) <==> Registers(channel, loggedIn, name) {
        AcceptedIff(channel, loggedIn, name);
      }
      if parsed.Valid? {
        assert Registers(channel, loggedIn, parsed.channel);
      } else {
        assert Refused(channel, loggedIn, parsed.code);
      }
    }

    /** Without a login no private channel is added; under the cap the answer says why. */
    lemma AnonymousGetsNothingPrivate(channel: string, held: set<string>, after: set<string>, told: seq<Message>,
                                      ticker: Option<int>, mark: int)
      requires SubscriptionGoes(channel, false, ticker, mark, held, after, told) && "user:" <= channel
      ensures after == held
      ensures channel !in held && |held| < maxSubscriptions ==> told == [Error(Unauthorized)]
    {
      if channel !in held && |held| < maxSubscriptions {
        assert Refused(channel, false, Unauthorized);
      }
    }

    /** In every state: who holds a private channel is logged in, and it is one of the four. */
    lemma PrivateHoldersAreLoggedIn(id: string, channel: string)
      requires Valid() && id in clients && channel in clients[id].subscriptions && "user:" <= channel
      ensures clients[id].userId.Some?
      ensures channel in {"user:orders", "user:trades", "user:balances", "user:positions"}
    {
      hide Agree, Filed;
      assert Private(channel) && channel in Subs()[id];
    }

    /** The name a subscription adds, if it passes the checks. */
    function Granted(channel: string, held: set<string>, authenticated: bool): set<string> {
      if channel in held || |held| >= maxSubscriptions then {}
      else match Parse(channel, authenticated)
        case Invalid(_) => {}
        case Valid(name) => {name}
    }

    method Revoke(client: Client, channel: string)
      requires Valid() && Owns(client)
      modifies this`channelSubscribers, client`subscriptions
      ensures Valid() && client.subscriptions == old(client.subscriptions) - {channel}
      ensures forall ch ::
        Members(channelSubscribers, ch)
        == Members(old(channelSubscribers), ch) - if ch == channel then {client.id} else {}
    {
      hide Agree, Filed, Entitled, LoggedOut, Members, Without, Private, PrivateName;
      ghost var subs := Subs();
      RevokedIsEntitled(subs, Users(), client.id, channel);
      AgreesHasNoEmpty(subs, channelSubscribers);
      MembersAfter(channelSubscribers, channel, client.id);
      UnsubscribeAgrees(subs, channelSubscribers, channel, client.id);
      Hold(client, client.subscriptions - {channel});
      channelSubscribers := Without(channelSubscribers, channel, client.id);
    }

    /** handleUnsubscribe: the name is taken as it comes, without the canonical form. */
    method Unsubscribe(client: Client, channel: string)
      requires Valid() && Owns(client)
      modifies this`clients, this`userConnections, this`channelSubscribers
      modifies client`subscriptions, client`socket, client`sent
      ensures Valid() && client.subscriptions == old(client.subscriptions) - {channel}
      ensures client.View() == old(client.View()).Offered(Unsubscribed(channel))
      ensures var dropped := if old(client.View()).Slow() then {client.id} else {};
        && clients == old(clients) - dropped
        && forall ch :: Members(channelSubscribers, ch)
             == Members(old(channelSubscribers), ch) - (if ch == channel then {client.id} else {}) - dropped
      ensures userConnections == if old(client.View()).Slow()
                                 then LoggedOut(old(userConnections), client.userId, client.id)
                                 else old(userConnections)
    {
      hide Agree, Filed, Entitled, LoggedOut, Members, WebSocketGateway.Valid;
      Revoke(client, channel);
      Send(client, Unsubscribed(channel));
    }

    ghost function Beats(): map<string, int>
      reads `clients, clients.Values`lastHeartbeat
    {
      map id | id in clients :: clients[id].lastHeartbeat
    }

    /** A pruning since `m`: the dead among the visited are closed and have left channels and users' sets. */
    ghost predicate Pruned(m: Moment, dead: set<string>)
      reads `clients, `channelSubscribers, `userConnections
      reads m.clients.Values`socket, m.clients.Values`buffered, m.clients.Values`sent
    {
      DroppedSince(m, dead) && Views(m.clients) == Terminated(m.views, dead)
    }

    /** client.socket.terminate() and handleClientDisconnect, as they show among all connections */
    method CloseAndDisconnect(id: string, ghost all: map<string, Client>)
      requires Valid() && id in clients && id in all && clients[id] == all[id]
      requires forall other :: other in all ==> all[other].id == other
      modifies this`clients, this`userConnections, this`channelSubscribers, all.Values`socket
      ensures Valid() && Views(all) == Terminated(old(Views(all)), {id})
      ensures clients == old(clients) - {id} && userConnections == LoggedOut(old(userConnections), all[id].userId, id)
      ensures forall ch :: Members(channelSubscribers, ch) == Members(old(channelSubscribers), ch) - {id}
    {
      hide Agree, Filed, Entitled, LoggedOut, Members;
      var client := clients[id];
      client.socket := Closed;
      Disconnect(client);
    }

    method Terminate(id: string, ghost m: Moment, ghost dead: set<string>)
      requires Valid() && Pruned(m, dead) && m.Consistent() && id in clients
      modifies this`clients, this`userConnections, this`channelSubscribers, m.clients.Values`socket
      ensures Valid() && Pruned(m, dead + {id}) && m.Consistent()
    {
      assert Terminated(Terminated(m.views, dead), {id}) == Terminated(m.views, dead + {id});
      hide LoggedOut, Members, Leaving, Views, Terminated, WebSocketGateway.Valid;
      ghost var filed, channels := userConnections, channelSubscribers;
      UserSetsHaveNoEmpty();
      CloseAndDisconnect(id, m.clients);
      DropsNext(m, dead, filed, channels, id);
    }

    /** When every connection was last heard from, as it still says. */
    ghost predicate Beating(all: map<string, Client>, beats: map<string, int>)
      reads all.Values`lastHeartbeat
    {
      all.Keys == beats.Keys && forall id :: id in all ==> all[id].lastHeartbeat == beats[id]
    }

    /** One turn of the heartbeat's loop. */
    method CheckBeat(id: string, now: int, interval: int, ghost m: Moment, ghost beats: map<string, int>,
                     ghost visited: set<string>)
      requires Valid() && Pruned(m, DeadAmong(beats, visited, now, interval)) && m.Consistent()
      requires id in clients && Beating(m.clients, beats)
      modifies this`clients, this`userConnections, this`channelSubscribers, m.clients.Values`socket
      ensures Valid() && Pruned(m, DeadAmong(beats, visited + {id}, now, interval)) && m.Consistent()
      ensures clients.Keys <= m.clients.Keys
    {
      hide Members, Views, Terminated, DeadAmong, Leaving, WebSocketGateway.Valid, Moment.Consistent;
      NextDead(beats, visited, id, now, interval);
      if now - clients[id].lastHeartbeat > interval * 2 {
        Terminate(id, m, DeadAmong(beats, visited, now, interval));
      }
    }

    lemma PruneStarts(now: int, interval: int)
      requires Valid()
      ensures Pruned(Here(), DeadAmong(Beats(), {}, now, interval)) && Here().Consistent() && Beating(clients, Beats())
    {
      hide Agree, Filed, Members;
      LeavingNone(Users());
      assert DeadAmong(Beats(), {}, now, interval) == {};
      assert Terminated(Views(clients), {}) == Views(clients);
    }

    lemma AllBeatsChecked(m: Moment, beats: map<string, int>, visited: set<string>, now: int, interval: int)
      requires Pruned(m, DeadAmong(beats, visited, now, interval))
      requires visited <= m.clients.Keys && clients.Keys - visited == {}
      ensures visited == m.clients.Keys
    {
      hide Members, Terminated, Leaving;
      DeadAreVisited(beats, visited, m.clients.Keys, now, interval);
    }

    lemma PrunedReads(m: Moment, beats: map<string, int>, now: int, interval: int)
      requires Pruned(m, DeadAmong(beats, m.clients.Keys, now, interval)) && Beating(m.clients, beats)
      requires m.Consistent()
      ensures forall id :: id in m.clients ==>
        if now - m.clients[id].lastHeartbeat > 2 * interval
        then id !in clients && m.clients[id].socket == Closed
        else id in clients && clients[id] == m.clients[id] && clients[id].socket == m.views[id].socket
    {
      hide Members, Leaving;
      var dead := DeadAmong(beats, m.clients.Keys, now, interval);
      forall id | id in m.clients
        ensures m.clients[id].View() == if id in dead then m.views[id].(socket := Closed) else m.views[id]
        ensures id in dead <==> now - m.clients[id].lastHeartbeat > 2 * interval
      {
        assert Views(m.clients)[id] == Terminated(m.views, dead)[id];
      }
    }

    /**
     The heartbeat: exactly the connections silent for more than two intervals are closed and
     leave the connections, all channels and their users' sets, although the map being iterated
     over is one of them.
     */
    method Prune(now: int, interval: int)
      requires Valid()
      modifies this`clients, this`userConnections, this`channelSubscribers, clients.Values`socket
      ensures Valid()
      ensures Pruned(old(Here()), DeadAmong(old(Beats()), old(clients.Keys), now, interval))
      ensures forall id :: id in old(clients) ==>
        if now - old(clients)[id].lastHeartbeat > 2 * interval
        then id !in clients && old(clients)[id].socket == Closed
        else id in clients && clients[id] == old(clients)[id] && clients[id].socket == old(clients[id].socket)
    {
      hide DeadAmong, WebSocketGateway.Valid, WebSocketGateway.Beats, WebSocketGateway.Beating,
           WebSocketGateway.Pruned, Moment.Consistent;
      ghost var m, beats := Here(), Beats();
      PruneStarts(now, interval);
      var visited := {};
      while clients.Keys - visited != {}
        invariant Valid() && visited <= m.clients.Keys && clients.Keys <= m.clients.Keys && m.Consistent()
        invariant Pruned(m, DeadAmong(beats, visited, now, interval))
        decreases m.clients.Keys - visited
      {
        var id :| id in clients.Keys - visited;
        CheckBeat(id, now, interval, m, beats, visited);
        visited := visited + {id};
      }
      AllBeatsChecked(m, beats, visited, now, interval);
      PrunedReads(m, beats, now, interval);
    }

    /** close: every socket is terminated and the indexes are emptied. */
    method Close()
      requires Valid()
      modifies this`clients, this`userConnections, this`channelSubscribers, clients.Values`socket
      ensures Valid() && clients == map[] && userConnections == map[] && channelSubscribers == map[]
      ensures forall id :: id in old(clients) ==> old(clients)[id].socket == Closed
    {
      var rest := clients.Keys;
      while rest != {}
        invariant rest <= clients.Keys && clients == old(clients)
        invariant forall id :: id in clients && id !in rest ==> clients[id].socket == Closed
        decreases rest
      {
        var id :| id in rest;
        clients[id].socket := Closed;
        rest := rest - {id};
      }
      clients, userConnections, channelSubscribers := map[], map[], map[];
      assert Subs() == map[] && Users() == map[];
    }
  }

  ghost function Views(clients: map<string, Client>): map<string, Outlet>
    reads clients.Values`socket, clients.Values`buffered, clients.Values`sent
  {
    map id | id in clients :: clients[id].View()
  }

  function OfferedAll(view: Outlet, messages: seq<Message>): Outlet {
    if |messages| == 0 then view else OfferedAll(view, messages[..|messages| - 1]).Offered(messages[|messages| - 1])
  }

  /** Only the first of several answers can drop a slow connection. */
  lemma {:induction false} OfferedOnce(view: Outlet, messages: seq<Message>)
    ensures OfferedAll(view, messages).Slow() <==> view.Slow() && |messages| == 0
  {
    if |messages| > 0 {
      OfferedOnce(view, messages[..|messages| - 1]);
    }
  }

  /** The snapshot or the current value that follows some subscriptions. */
  function FirstData(name: string, ticker: Option<int>, mark: int): seq<Message> {
    if StartsWith(name, "orderbook:") then [Snapshot(name)]
    else if StartsWith(name, "ticker:") && ticker.Some? then [Event(name, ticker.value)]
    else if StartsWith(name, "markPrice:") then [Event(name, mark)]
    else []
  }

  /** Order books are followed by a snapshot, mark prices and known tickers by the present value. */
  lemma FirstDataIs(symbol: string, ticker: Option<int>, mark: int)
    ensures FirstData(Key("orderbook", symbol), ticker, mark) == [Snapshot(Key("orderbook", symbol))]
    ensures FirstData(Key("ticker", symbol), ticker, mark)
         == if ticker.Some? then [Event(Key("ticker", symbol), ticker.value)] else []
    ensures FirstData(Key("markPrice", symbol), ticker, mark) == [Event(Key("markPrice", symbol), mark)]
  {
    assert Key("orderbook", symbol)[..10] == "orderbook:";
    assert Key("ticker", symbol)[..7] == "ticker:" && Key("ticker", symbol)[0] == 't';
    assert Key("markPrice", symbol)[..10] == "markPrice:" && Key("markPrice", symbol)[0] == 'm';
    assert "orderbook:"[0] == 'o' && "ticker:"[0] == 't';
  }

  /** Nothing follows trades, candles and private channels. */
  lemma NoFirstData(symbol: string, ticker: Option<int>, mark: int)
    ensures FirstData(Key("trades", symbol), ticker, mark) == []
    ensures FirstData(Key("kline", symbol), ticker, mark) == []
    ensures FirstData(Key("user", symbol), ticker, mark) == []
  {
    assert Key("kline", symbol)[0] == 'k' && Key("user", symbol)[0] == 'u' && Key("trades", symbol)[0] == 't';
    assert Key("trades", symbol)[1] == 'r' && "ticker:"[1] == 'i';
    assert "orderbook:"[0] == 'o' && "ticker:"[0] == 't' && "markPrice:"[0] == 'm';
  }

  /** A subscription that passes its checks, on a connection that can take the answer. */
  method SubscribeAnswered(gateway: WebSocketGateway, client: Client, raw: string, ticker: Option<int>, mark: int)
    requires gateway.Valid() && client.id in gateway.clients && gateway.Owns(client) && !client.View().Slow()
    requires raw !in client.subscriptions && |client.subscriptions| < gateway.maxSubscriptions
    requires Parse(raw, client.userId.Some?).Valid?
    modifies gateway`clients, gateway`userConnections, gateway`channelSubscribers
    modifies client`subscriptions, client`socket, client`sent
    ensures gateway.Valid() && gateway.clients == old(gateway.clients) && !client.View().Slow()
    ensures var name := old(Parse(raw, client.userId.Some?).channel);
      && client.subscriptions == old(client.subscriptions) + {name}
      && forall ch :: Members(gateway.channelSubscribers, ch)
           == Members(old(gateway.channelSubscribers), ch) + (if ch in {name} then {client.id} else {}) - {}
  {
    assert gateway.Granted(raw, client.subscriptions, client.userId.Some?) == {Parse(raw, client.userId.Some?).channel};
    hide Members, Parse, OfferedAll, LoggedOut, WebSocketGateway.Valid, WebSocketGateway.Granted,
         WebSocketGateway.Replies;
    OfferedOnce(client.View(), gateway.Replies(raw, client.subscriptions, client.userId.Some?, ticker, mark));
    gateway.Subscribe(client, raw, ticker, mark);
    assert gateway.clients == old(gateway.clients);
  }

  method UnsubscribeAnswered(gateway: WebSocketGateway, client: Client, raw: string)
    requires gateway.Valid() && gateway.Owns(client) && !client.View().Slow()
    modifies gateway`clients, gateway`userConnections, gateway`channelSubscribers
    modifies client`subscriptions, client`socket, client`sent
    ensures gateway.Valid() && gateway.clients == old(gateway.clients)
    ensures client.subscriptions == old(client.subscriptions) - {raw}
    ensures forall ch ::
      Members(gateway.channelSubscribers, ch)
      == Members(old(gateway.channelSubscribers), ch) - (if ch == raw then {client.id} else {}) - {}
  {
    hide Members, LoggedOut, WebSocketGateway.Valid;
    gateway.Unsubscribe(client, raw);
    assert gateway.clients == old(gateway.clients);
  }

  /**
   Unsubscribing with the text that subscribed undoes the subscription, on the connection and in
   the index, exactly when that text is canonical or its canonical form was held before: an
   unsubscribe is not canonicalised.
   */
  method SubscribeThenUnsubscribe(gateway: WebSocketGateway, client: Client, raw: string, ticker: Option<int>,
                                  mark: int)
    requires gateway.Valid() && client.id in gateway.clients && gateway.Owns(client) && !client.View().Slow()
    requires raw !in client.subscriptions && |client.subscriptions| < gateway.maxSubscriptions
    requires Parse(raw, client.userId.Some?).Valid?
    modifies gateway`clients, gateway`userConnections, gateway`channelSubscribers
    modifies client`subscriptions, client`socket, client`sent
    ensures gateway.Valid() && gateway.clients == old(gateway.clients)
    ensures var name := old(Parse(raw, client.userId.Some?).channel);
      var undone := name == raw || name in old(client.subscriptions);
      && client.subscriptions == (old(client.subscriptions) + {name}) - {raw}
      && (client.subscriptions == old(client.subscriptions) <==> undone)
      && (gateway.channelSubscribers == old(gateway.channelSubscribers) <==> undone)
  {
    hide Members, Parse, WebSocketGateway.Valid;
    ghost var held, index := client.subscriptions, gateway.channelSubscribers;
    ghost var name := Parse(raw, client.userId.Some?).channel;
    gateway.HeldIsFiled(client);
    SubscribeAnswered(gateway, client, raw, ticker, mark);
    ghost var between := gateway.channelSubscribers;
    UnsubscribeAnswered(gateway, client, raw);
    gateway.NoEmptySets();
    UndoneIff(index, between, gateway.channelSubscribers, held, name, raw, client.id);
  }

  lemma UndoneIff(index: Index, between: Index, after: Index, held: set<string>, name: string, raw: string, id: string)
    requires NoEmpty(index) && NoEmpty(after) && raw !in held
    requires forall ch :: id in Members(index, ch) <==> ch in held
    requires forall ch :: Members(between, ch) == Members(index, ch) + (if ch in {name} then {id} else {}) - {}
    requires forall ch :: Members(after, ch) == Members(between, ch) - (if ch == raw then {id} else {}) - {}
    ensures (held + {name}) - {raw} == held <==> name == raw || name in held
    ensures after == index <==> name == raw || name in held
  {
    hide Members;
    if name == raw || name in held {
      assert forall ch :: Members(after, ch) == Members(index, ch);
      SameMembersSameIndex(after, index);
    } else {
      assert name in (held + {name}) - {raw};
      assert id in Members(after, name) && id !in Members(index, name);
    }
  }

  lemma LowerCaseTicker(authenticated: bool)
    ensures Parse("ticker:btc", authenticated) == Valid("ticker:BTC") && "ticker:btc" != "ticker:BTC"
  {
    var ticker, btc := "ticker", "btc";
    assert "ticker:btc"[7] != "ticker:BTC"[7];
    assert Key(ticker, btc) == "ticker:btc" && Upper(btc) == "BTC" && Key(ticker, Upper(btc)) == "ticker:BTC";
    assert ColonFree(ticker) && ColonFree(btc) && ticker == PUBLIC_PREFIXES[0];
    hide Split, Upper, Lower, ColonFree, Key;
    PublicPrefixesDiffer(ticker, btc);
    SplitOfKey(ticker, btc);
    SplitOfWord(btc);
    assert Split(Key(ticker, btc)) == [ticker, btc];
  }

  /**
   In particular, after subscribing and unsubscribing ticker:btc a connection still holds ticker:BTC
   and is filed under it.
   */
  method LowerCaseTickerStays(gateway: WebSocketGateway, client: Client, ticker: Option<int>, mark: int)
    requires gateway.Valid() && client.id in gateway.clients && gateway.Owns(client) && !client.View().Slow()
    requires "ticker:btc" !in client.subscriptions && "ticker:BTC" !in client.subscriptions
    requires |client.subscriptions| < gateway.maxSubscriptions
    modifies gateway`clients, gateway`userConnections, gateway`channelSubscribers
    modifies client`subscriptions, client`socket, client`sent
    ensures gateway.Valid() && client.id in gateway.clients
    ensures client.subscriptions == old(client.subscriptions) + {"ticker:BTC"}
    ensures client.id in Members(gateway.channelSubscribers, "ticker:BTC")
  {
    hide Members, Parse, WebSocketGateway.Valid;
    LowerCaseTicker(client.userId.Some?);
    SubscribeThenUnsubscribe(gateway, client, "ticker:btc", ticker, mark);
    gateway.HeldIsFiled(client);
  }

  /** Logging in as another user leaves the first entry, and disconnecting does not remove it. */
  method LoginTwiceThenDisconnect(gateway: WebSocketGateway, client: Client, first: string, second: string)
    requires gateway.Valid() && client.id in gateway.clients && gateway.Owns(client)
    requires client.userId == Some(first) && first != second && !client.View().Slow()
    modifies gateway`clients, gateway`userConnections, gateway`channelSubscribers
    modifies client`userId, client`socket, client`sent
    ensures gateway.Valid() && client.id !in gateway.clients
    ensures client.id in Members(gateway.userConnections, first)
  {
    hide Agree, Without, With, Members;
    ghost var filed := gateway.userConnections;
    assert gateway.Users()[client.id] == Some(first) && client.id in Members(filed, first);
    MembersAfter(filed, second, client.id);
    gateway.Authenticate(client, second);
    MembersAfter(gateway.userConnections, second, client.id);
    gateway.Disconnect(client);
  }
}
