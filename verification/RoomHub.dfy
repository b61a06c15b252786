/** The hub's own methods, in place on its maps, its message channel and the clients'
    channels; each is one or two steps of HubMachine. */
module RoomHub {
  import opened Domain
  import opened Clients
  import M = HubMachine

  /** Unregistrations offered one after the other to the bounded message channel. */
  function EnqueueAll(q: seq<M.HubMessage>, found: seq<Client>): seq<M.HubMessage> {
    if found == [] then q
    else M.Enqueue(EnqueueAll(q, found[..|found| - 1]), M.Unregister(found[|found| - 1], true))
  }

  /** Exactly the messages that still fit are queued, in order. */
  lemma {:induction false} EnqueueAllFits(q: seq<M.HubMessage>, found: seq<Client>)
    requires |q| <= 512
    ensures var n := if |found| <= 512 - |q| then |found| else 512 - |q|;
      && |EnqueueAll(q, found)| == |q| + n && EnqueueAll(q, found)[..|q|] == q
      && forall i :: 0 <= i < n ==> EnqueueAll(q, found)[|q| + i] == M.Unregister(found[i], true)
  {
    if found != [] {
      EnqueueAllFits(q, found[..|found| - 1]);
    }
  }

  /** What a client's connection yields. */
  datatype Read = TextMessage | OtherMessage | ReadError

  /** The text messages before the first read error. */
  function Texts(inbox: seq<Read>): nat {
    if inbox == [] || inbox[0].ReadError? then 0
    else (if inbox[0].TextMessage? then 1 else 0) + Texts(inbox[1..])
  }

  /** No read error came at or before this position. */
  ghost predicate Unbroken(inbox: seq<Read>, i: int) {
    forall j :: 0 <= j <= i && j < |inbox| ==> !inbox[j].ReadError?
  }

  lemma {:induction false} TextsSnoc(inbox: seq<Read>, x: Read)
    ensures Texts(inbox + [x]) == Texts(inbox) + if x.TextMessage? && Unbroken(inbox, |inbox|) then 1 else 0
  {
    if inbox == [] {
      assert (inbox + [x])[1..] == [];
    } else {
      TextsSnoc(inbox[1..], x);
      assert (inbox + [x])[1..] == inbox[1..] + [x];
      if !inbox[0].ReadError? {
        assert forall j :: 0 <= j < |inbox| - 1 ==> inbox[1..][j] == inbox[j + 1];
        assert forall j :: 0 < j < |inbox| ==> inbox[j] == inbox[1..][j - 1];
        assert Unbroken(inbox[1..], |inbox| - 1) <==> Unbroken(inbox, |inbox|);
      }
    }
  }

  ghost function Kept(inbox: seq<Read>): set<int> {
    set i | 0 <= i < |inbox| && inbox[i].TextMessage? && (forall j :: 0 <= j <= i ==> !inbox[j].ReadError?)
  }

  lemma KeptSnoc(inbox: seq<Read>, x: Read)
    ensures |Kept(inbox + [x])| == |Kept(inbox)| + if x.TextMessage? && Unbroken(inbox, |inbox|) then 1 else 0
  {
    var all, n := inbox + [x], |inbox|;
    assert forall i :: 0 <= i < n ==> all[i] == inbox[i];
    assert Kept(all) - {n} == Kept(inbox);
    assert n in Kept(all) <==> x.TextMessage? && Unbroken(inbox, n);
  }

  /** The count is the number of positions that hold a text message with no read error at
      or before them. */
  lemma {:induction false} TextsAreCounted(inbox: seq<Read>)
    ensures Texts(inbox) ==
      |set i | 0 <= i < |inbox| && inbox[i].TextMessage? && (forall j :: 0 <= j <= i ==> !inbox[j].ReadError?)|
  {
    if inbox == [] {
      assert Kept(inbox) == {};
    } else {
      hide Texts, Unbroken;
      var n := |inbox| - 1;
      var init := inbox[..n];
      TextsAreCounted(init);
      TextsSnoc(init, inbox[n]);
      KeptSnoc(init, inbox[n]);
      assert inbox == init + [inbox[n]];
      assert Texts(init) == |Kept(init)| && Texts(inbox) == |Kept(inbox)|;
    }
  }

  function Copies<T>(n: nat, x: T): (xs: seq<T>)
    ensures |xs| == n && forall i :: 0 <= i < n ==> xs[i] == x
  {
    if n == 0 then [] else Copies(n - 1, x) + [x]
  }

  function Min(a: int, b: int): int {
    if a < b then a else b
  }

  /** Registering a room's first client subscribes the room. */
  ghost function AfterRegister(rooms: map<nat, set<Client>>, u: M.Subs, c: Client, l: nat, cursor: nat): M.Subs {
    if c.roomID !in rooms || rooms[c.roomID] == {c} then M.DoSubscribe(u.(pc := M.Starting(c.roomID)), l, cursor)
    else u
  }

  /** Unregistering a room's last client unsubscribes the room. */
  ghost function AfterUnregister(rooms: map<nat, set<Client>>, u: M.Subs, c: Client): M.Subs {
    if c.roomID in rooms && rooms[c.roomID] == {c} then M.DoUnsubscribe(u.(pc := M.Stopping(c.roomID))) else u
  }

  /** One member after the insertion: the client is the first, or was alone already. */
  lemma FirstTest(rooms: map<nat, set<Client>>, c: Client)
    requires c.roomID in rooms ==> rooms[c.roomID] != {}
    ensures |M.AddClient(rooms, c)[c.roomID]| == 1 <==> c.roomID !in rooms || rooms[c.roomID] == {c}
  {
    var members := M.AddClient(rooms, c)[c.roomID];
    assert |members - {c}| == |members| - 1;
    if |members| == 1 {
      assert members == {c};
    } else if c.roomID !in rooms || rooms[c.roomID] == {c} {
      assert members == {c};
    }
  }

  /** A whole registerClient is the machine's two steps with nobody between them. */
  lemma RegisterIsTwoSteps(s: M.Hub, c: Client, l: nat, cursor: nat)
    requires s.subs.pc.Idle? && c in s.net.clients && l !in s.subs.loops
    requires c.roomID in s.net.rooms ==> s.net.rooms[c.roomID] != {}
    ensures var s' := M.DoRegister(s, c);
      var u := if s'.subs.pc.Starting? then M.DoSubscribe(s'.subs, l, cursor) else s'.subs;
      && s'.net.rooms == M.AddClient(s.net.rooms, c) && u.pc.Idle?
      && u == AfterRegister(s.net.rooms, s.subs, c, l, cursor)
  {
    hide M.AddClient, M.DoSubscribe;
    FirstTest(s.net.rooms, c);
    assert M.AddClient(s.net.rooms, c).Keys == s.net.rooms.Keys + {c.roomID} by { Grows(s.net.rooms, c); }
    SubscribedIdle(s.subs.(pc := M.Starting(c.roomID)), l, cursor);
  }

  lemma Grows(rooms: map<nat, set<Client>>, c: Client)
    ensures var rooms' := M.AddClient(rooms, c);
      && rooms'.Keys == rooms.Keys + {c.roomID}
      && forall r :: r in rooms' ==>
           rooms'[r] == (if r in rooms then rooms[r] else {}) + (if r == c.roomID then {c} else {})
  {
  }

  lemma Shrinks(rooms: map<nat, set<Client>>, c: Client)
    requires forall r :: r in rooms ==> rooms[r] != {}
    ensures var rooms', last := M.RemoveClient(rooms, c), c.roomID in rooms && rooms[c.roomID] == {c};
      && rooms'.Keys == (if last then rooms.Keys - {c.roomID} else rooms.Keys)
      && forall r :: r in rooms' ==> rooms'[r] == rooms[r] - (if r == c.roomID then {c} else {})
  {
  }

  lemma SubscribedIdle(u: M.Subs, l: nat, cursor: nat)
    requires u.pc.Starting? && l !in u.loops
    ensures M.DoSubscribe(u, l, cursor).pc.Idle?
  {
  }

  /** And so is unregisterClient, with the client's channel as Retire leaves it. */
  lemma UnregisterIsTwoSteps(s: M.Hub, c: Client)
    requires s.subs.pc.Idle? && c in s.net.clients
    ensures var s' := M.DoUnregister(s, c);
      var u := if s'.subs.pc.Stopping? then M.DoUnsubscribe(s'.subs) else s'.subs;
      && s'.net.rooms == M.RemoveClient(s.net.rooms, c) && u.pc.Idle?
      && u == AfterUnregister(s.net.rooms, s.subs, c)
      && s'.net.clients[c].chan ==
           if M.IsRegistered(s.net.rooms, c) then Retire(s.net.clients[c].chan) else s.net.clients[c].chan
  {
    hide M.DoUnsubscribe;
    UnsubscribedIdle(s.subs.(pc := M.Stopping(c.roomID)));
  }

  lemma UnsubscribedIdle(u: M.Subs)
    requires u.pc.Stopping?
    ensures M.DoUnsubscribe(u).pc.Idle?
  {
  }

  /** Of the entries of `u`, those not in `left` were cancelled and removed. */
  ghost predicate StoppedSoFar(u: M.Subs, left: map<nat, nat>, loops: map<nat, M.Loop>, done: set<nat>) {
    && left.Keys <= u.entries.Keys && (forall r :: r in left ==> left[r] == u.entries[r])
    && loops.Keys == u.loops.Keys
    && (forall r :: r in u.entries ==> u.entries[r] in u.loops)
    && (forall l :: l in done ==> l in u.entries.Values)
    && (forall r :: r in u.entries && r !in left ==> u.entries[r] in done)
    && (forall l :: l in u.loops ==> loops[l] == if l in done then u.loops[l].(cancelled := true) else u.loops[l])
  }

  lemma NoneStopped(u: M.Subs)
    requires forall r :: r in u.entries ==> u.entries[r] in u.loops
    ensures StoppedSoFar(u, u.entries, u.loops, {})
  {
  }

  lemma StopOneMore(u: M.Subs, left: map<nat, nat>, loops: map<nat, M.Loop>, done: set<nat>, r: nat)
    requires StoppedSoFar(u, left, loops, done) && r in left
    ensures left[r] in loops
    ensures var l := left[r];
      StoppedSoFar(u, left - {r}, loops[l := loops[l].(cancelled := true)], done + {l})
  {
  }

  lemma AllStopped(u: M.Subs, loops: map<nat, M.Loop>, done: set<nat>)
    requires StoppedSoFar(u, map[], loops, done)
    ensures loops == M.DoStopAll(u).loops && M.DoStopAll(u).entries == map[] && loops.Keys == u.loops.Keys
    ensures forall l :: l in loops ==>
              loops[l] == if l in u.entries.Values then u.loops[l].(cancelled := true) else u.loops[l]
  {
    assert forall l :: l in u.entries.Values ==> l in done;
  }

  class Hub {
    var rooms: map<nat, set<Client>>
    var roomSubscriptions: map<nat, nat>
    var loops: map<nat, M.Loop>
    var messageChan: seq<M.HubMessage>

    constructor ()
      ensures rooms == map[] && roomSubscriptions == map[] && loops == map[] && messageChan == []
    {
      rooms, roomSubscriptions, loops, messageChan := map[], map[], map[], [];
    }

    /** No room entry is empty, clients are under their own room, with open channels,
        and every entry's cancel function belongs to a started loop. */
    ghost predicate Valid()
      reads this, set r, c | r in rooms && c in rooms[r] :: c
    {
      RoomsOpen() && SubscriptionsStarted()
    }

    ghost predicate RoomsOpen()
      reads this`rooms, set r, c | r in rooms && c in rooms[r] :: c
    {
      forall r :: r in rooms ==> rooms[r] != {} && forall c :: c in rooms[r] ==> c.roomID == r && c.send.open
    }

    ghost predicate SubscriptionsStarted()
      reads this
    {
      forall r :: r in roomSubscriptions ==> roomSubscriptions[r] in loops
    }

    ghost function Subs(): M.Subs
      reads this
    {
      M.Subs(roomSubscriptions, loops, M.Idle, {}, {})
    }

    /** The subscriptions map and the loops are those of this abstract state. */
    ghost predicate Agrees(u: M.Subs)
      reads this
    {
      roomSubscriptions == u.entries && loops == u.loops
    }

    /** Hub.registerClient; `l` names the loop that would be started and `cursor` is
        the room's next publication. */
    method RegisterClient(c: Client, l: nat, cursor: nat)
      requires Valid() && c.send.open && l !in loops
      modifies this
      ensures Valid() && rooms == M.AddClient(old(rooms), c) && messageChan == old(messageChan)
      ensures Agrees(AfterRegister(old(rooms), old(Subs()), c, l, cursor))
      ensures rooms.Keys == old(rooms).Keys + {c.roomID}
      ensures forall r :: r in rooms ==>
                rooms[r] == (if r in old(rooms) then old(rooms)[r] else {}) + (if r == c.roomID then {c} else {})
      ensures var starts := (c.roomID !in old(rooms) || old(rooms)[c.roomID] == {c}) && c.roomID !in old(roomSubscriptions);
              && roomSubscriptions == (if starts then old(roomSubscriptions)[c.roomID := l] else old(roomSubscriptions))
              && loops == if starts then old(loops)[l := M.Loop(c.roomID, false, cursor, M.Running)] else old(loops)
    {
      hide M.AddClient, M.DoSubscribe, RoomsOpen;
      Grows(rooms, c);
      var isFirst := AddToRoom(c);
      if isFirst {
        StartRoomSubscription(c.roomID, l, cursor);
      }
    }

    /** What registerClient does under the rooms lock. */
    method AddToRoom(c: Client) returns (isFirst: bool)
      requires Valid() && c.send.open
      modifies this`rooms
      ensures Valid() && rooms == M.AddClient(old(rooms), c)
      ensures isFirst <==> c.roomID !in old(rooms) || old(rooms)[c.roomID] == {c}
    {
      if c.roomID !in rooms {
        rooms := rooms[c.roomID := {}];
      }
      rooms := rooms[c.roomID := rooms[c.roomID] + {c}];
      assert rooms == M.AddClient(old(rooms), c);
      FirstTest(old(rooms), c);
      isFirst := |rooms[c.roomID]| == 1;
    }

    method StartRoomSubscription(r: nat, l: nat, cursor: nat)
      requires SubscriptionsStarted() && l !in loops
      modifies this`roomSubscriptions, this`loops
      ensures SubscriptionsStarted() && Agrees(M.DoSubscribe(old(Subs()).(pc := M.Starting(r)), l, cursor))
      ensures if r in old(roomSubscriptions) then roomSubscriptions == old(roomSubscriptions) && loops == old(loops)
              else roomSubscriptions == old(roomSubscriptions)[r := l]
                   && loops == old(loops)[l := M.Loop(r, false, cursor, M.Running)]
    {
      if r in roomSubscriptions {
        return;
      }
      roomSubscriptions := roomSubscriptions[r := l];
      loops := loops[l := M.Loop(r, false, cursor, M.Running)];
    }

    /** Hub.unregisterClient; `cleanup` says whether the room's Redis state is to be
        deleted in the background. */
    method UnregisterClient(c: Client) returns (cleanup: bool)
      requires Valid()
      modifies this, c
      ensures Valid() && rooms == M.RemoveClient(old(rooms), c) && messageChan == old(messageChan)
      ensures c.send == if M.IsRegistered(old(rooms), c) then Retire(old(c.send)) else old(c.send)
      ensures cleanup <==> c.roomID in old(rooms) && c.roomID !in rooms
      ensures Agrees(AfterUnregister(old(rooms), old(Subs()), c))
      ensures cleanup <==> c.roomID in old(rooms) && old(rooms)[c.roomID] == {c}
      ensures rooms.Keys == if cleanup then old(rooms).Keys - {c.roomID} else old(rooms).Keys
      ensures forall r :: r in rooms ==> rooms[r] == old(rooms)[r] - if r == c.roomID then {c} else {}
      ensures var was := old(c.send);
              if !(c.roomID in old(rooms) && c in old(rooms)[c.roomID]) then c.send == was
              else if was.buffer != [] then c.send.buffer == was.buffer[1..] && c.send.open == was.open
              else c.send.buffer == [] && !c.send.open
      ensures if cleanup && c.roomID in old(roomSubscriptions) then
                var l := old(roomSubscriptions)[c.roomID];
                && roomSubscriptions == old(roomSubscriptions) - {c.roomID}
                && loops == old(loops)[l := old(loops)[l].(cancelled := true)]
              else roomSubscriptions == old(roomSubscriptions) && loops == old(loops)
    {
      hide M.RemoveClient, M.DoUnsubscribe;
      Shrinks(rooms, c);
      cleanup := RemoveFromRoom(c);
      if cleanup {
        StopRoomSubscription(c.roomID);
      }
    }

    /** What unregisterClient does under the rooms lock. */
    method RemoveFromRoom(c: Client) returns (emptied: bool)
      requires Valid()
      modifies this`rooms, c`send
      ensures Valid() && rooms == M.RemoveClient(old(rooms), c)
      ensures c.send == if M.IsRegistered(old(rooms), c) then Retire(old(c.send)) else old(c.send)
      ensures emptied <==> c.roomID in old(rooms) && c.roomID !in rooms
      ensures emptied <==> c.roomID in old(rooms) && old(rooms)[c.roomID] == {c}
    {
      emptied := false;
      if c.roomID !in rooms || c !in rooms[c.roomID] {
        return;
      }
      var rest := rooms[c.roomID] - {c};
      rooms := rooms[c.roomID := rest];
      if c.send.buffer != [] {
        c.send := c.send.(buffer := c.send.buffer[1..]);
      } else if c.send.open {
        c.send := c.send.(open := false);
      }
      if rest == {} {
        rooms := rooms - {c.roomID};
        emptied := true;
      }
      assert rooms == M.RemoveClient(old(rooms), c);
    }

    method StopRoomSubscription(r: nat)
      requires SubscriptionsStarted()
      modifies this`roomSubscriptions, this`loops
      ensures SubscriptionsStarted() && Agrees(M.DoUnsubscribe(old(Subs()).(pc := M.Stopping(r))))
      ensures if r in old(roomSubscriptions) then
                var l := old(roomSubscriptions)[r];
                && roomSubscriptions == old(roomSubscriptions) - {r}
                && loops == old(loops)[l := old(loops)[l].(cancelled := true)]
              else roomSubscriptions == old(roomSubscriptions) && loops == old(loops)
    {
      if r in roomSubscriptions {
        CancelEntry(r);
      }
    }

    /** Calls the entry's cancel function and deletes the entry. */
    method CancelEntry(r: nat)
      requires r in roomSubscriptions && roomSubscriptions[r] in loops
      modifies this`roomSubscriptions, this`loops
      ensures roomSubscriptions == old(roomSubscriptions) - {r}
      ensures var l := old(roomSubscriptions)[r]; loops == old(loops)[l := old(loops)[l].(cancelled := true)]
    {
      var l := roomSubscriptions[r];
      loops := loops[l := loops[l].(cancelled := true)];
      roomSubscriptions := roomSubscriptions - {r};
    }

    method StopAllSubscriptions() returns (count: nat)
      requires SubscriptionsStarted()
      modifies this`roomSubscriptions, this`loops
      ensures SubscriptionsStarted() && Agrees(M.DoStopAll(old(Subs())))
      ensures count == |old(roomSubscriptions).Keys| && roomSubscriptions == map[] && loops.Keys == old(loops).Keys
      ensures forall l :: l in loops ==>
                loops[l] == if l in old(roomSubscriptions).Values then old(loops)[l].(cancelled := true) else old(loops)[l]
    {
      hide M.DoStopAll, StoppedSoFar;
      count := 0;
      ghost var u, done: set<nat> := Subs(), {};
      assert StoppedSoFar(u, roomSubscriptions, loops, done) by { NoneStopped(u); }
      while roomSubscriptions.Keys != {}
        invariant StoppedSoFar(u, roomSubscriptions, loops, done)
        invariant count + |roomSubscriptions.Keys| == |u.entries.Keys|
        decreases |roomSubscriptions.Keys|
      {
        var r :| r in roomSubscriptions.Keys;
        StopOneMore(u, roomSubscriptions, loops, done, r);
        done := done + {roomSubscriptions[r]};
        CancelEntry(r);
        count := count + 1;
      }
      assert roomSubscriptions == map[];
      AllStopped(u, loops, done);
    }

    /** What a subscriber loop does last, whoever put the entry there. */
    method ExitLoop(l: nat)
      requires SubscriptionsStarted() && l in loops && loops[l].phase.Exiting?
      modifies this`roomSubscriptions, this`loops
      ensures SubscriptionsStarted() && Agrees(M.DoFinalDelete(old(Subs()), l))
      ensures roomSubscriptions == old(roomSubscriptions) - {old(loops)[l].room}
      ensures loops == old(loops)[l := old(loops)[l].(phase := M.Dead)]
    {
      var r := loops[l].room;
      roomSubscriptions := roomSubscriptions - {r};
      loops := loops[l := loops[l].(phase := M.Dead)];
    }

    /** The forwarding part of roomSubscribeLoop: the message is offered to every client
        of the room but the sender's own. */
    method Broadcast(r: nat, at: nat, a: Action)
      requires Valid()
      modifies if r in rooms then rooms[r] else {}
      ensures Valid()
      ensures forall c :: c in M.Others(rooms, r, a.userID) ==> c.send == TrySend(old(c.send), ActionMsg(at, a))
      ensures forall c :: c in (if r in rooms then rooms[r] else {}) && c.userID != a.userID ==>
                && c.send.open == old(c.send).open
                && c.send.buffer == old(c.send).buffer + if |old(c.send).buffer| < 256 then [ActionMsg(at, a)] else []
      ensures forall c :: c in (if r in rooms then rooms[r] else {}) && c.userID == a.userID ==> c.send == old(c.send)
    {
      if r !in rooms {
        return;
      }
      var todo := rooms[r];
      while todo != {}
        invariant todo <= rooms[r]
        invariant forall c :: c in todo ==> c.send == old(c.send)
        invariant forall c :: c in rooms[r] - todo ==>
          c.send == if c.userID != a.userID then TrySend(old(c.send), ActionMsg(at, a)) else old(c.send)
        invariant forall k, c :: k in rooms && c in rooms[k] ==> c.roomID == k && c.send.open
        decreases |todo|
      {
        var c :| c in todo;
        if c.userID != a.userID {
          var _ := c.Offer(ActionMsg(at, a));
        }
        todo := todo - {c};
      }
    }

    /** Hub.QueueMessage: never blocks; false when the channel is full. */
    method QueueMessage(m: M.HubMessage) returns (ok: bool)
      modifies this`messageChan
      ensures messageChan == M.Enqueue(old(messageChan), m)
      ensures ok <==> |old(messageChan)| < 512
      ensures messageChan == if ok then old(messageChan) + [m] else old(messageChan)
    {
      if |messageChan| < M.QUEUE {
        messageChan := messageChan + [m];
        return true;
      }
      return false;
    }

    /** Client.ReadPump: text messages are queued as long as there is room, and when the
        connection ends the client asks to be unregistered. */
    method ReadPump(c: Client, inbox: seq<Read>)
      requires |messageChan| <= M.QUEUE
      modifies this`messageChan
      ensures messageChan == M.Enqueue(
                old(messageChan) + Copies(Min(Texts(inbox), M.QUEUE - |old(messageChan)|), M.FromClient(c)),
                M.Unregister(c, false))
      ensures var texts := |set i | 0 <= i < |inbox| && inbox[i].TextMessage? && (forall j :: 0 <= j <= i ==> !inbox[j].ReadError?)|;
              var n, space := |old(messageChan)|, 512 - |old(messageChan)|;
              var taken := if texts < space then texts else space;
              && |messageChan| == n + taken + (if taken < space then 1 else 0) && messageChan[..n] == old(messageChan)
              && (forall i :: n <= i < n + taken ==> messageChan[i] == M.FromClient(c))
              && (taken < space ==> messageChan[n + taken] == M.Unregister(c, false))
    {
      TextsAreCounted(inbox);
      ghost var was := messageChan;
      var i, sent := 0, 0;
      while i < |inbox| && !inbox[i].ReadError?
        invariant 0 <= i <= |inbox| && sent + Texts(inbox[i..]) == Texts(inbox)
        invariant messageChan == was + Copies(Min(sent, M.QUEUE - |was|), M.FromClient(c))
      {
        if inbox[i].TextMessage? {
          var _ := QueueMessage(M.FromClient(c));
          sent := sent + 1;
        }
        assert inbox[i..][1..] == inbox[i + 1..];
        i := i + 1;
      }
      var _ := QueueMessage(M.Unregister(c, false));
    }

    /** Hub.GetActiveRoomIDs: the non-empty rooms, each once. */
    method GetActiveRoomIDs() returns (ids: seq<nat>)
      requires Valid()
      ensures forall r :: r in ids <==> r in rooms && rooms[r] != {}
      ensures forall i, j :: 0 <= i < j < |ids| ==> ids[i] != ids[j]
    {
      ids := [];
      var todo := rooms.Keys;
      while todo != {}
        invariant todo <= rooms.Keys
        invariant forall r :: r in ids <==> r in rooms && r !in todo
        invariant forall i, j :: 0 <= i < j < |ids| ==> ids[i] != ids[j]
        decreases |todo|
      {
        var r :| r in todo;
        ids := ids + [r];
        todo := todo - {r};
      }
    }

    /** The first part of performClientCleanup: every registered client, once. */
    method AllClients() returns (all: seq<Client>)
      requires Valid()
      ensures forall c :: c in all <==> M.IsRegistered(rooms, c)
      ensures forall i, j :: 0 <= i < j < |all| ==> all[i] != all[j]
    {
      all := [];
      var todo := rooms.Keys;
      while todo != {}
        invariant todo <= rooms.Keys
        invariant forall c :: c in all <==> M.IsRegistered(rooms, c) && c.roomID !in todo
        invariant forall i, j :: 0 <= i < j < |all| ==> all[i] != all[j]
        decreases |todo|
      {
        var r :| r in todo;
        var clients := rooms[r];
        while clients != {}
          invariant clients <= rooms[r]
          invariant forall c :: c in all <==>
            M.IsRegistered(rooms, c) && (c.roomID !in todo || (c.roomID == r && c !in clients))
          invariant forall i, j :: 0 <= i < j < |all| ==> all[i] != all[j]
          decreases |clients|
        {
          var c :| c in clients;
          all := all + [c];
          clients := clients - {c};
        }
        todo := todo - {r};
      }
    }

    /** Hub.performClientCleanup: exactly the clients whose ping failed are queued for
        unregistration, each once, as far as the message channel has room. */
    method PerformClientCleanup(failing: set<Client>) returns (found: seq<Client>)
      requires Valid()
      modifies this`messageChan
      ensures forall c :: c in found <==> M.IsRegistered(rooms, c) && c in failing
      ensures forall i, j :: 0 <= i < j < |found| ==> found[i] != found[j]
      ensures messageChan == EnqueueAll(old(messageChan), found)
    {
      var all := AllClients();
      found := [];
      var i := 0;
      while i < |all|
        invariant 0 <= i <= |all| && messageChan == old(messageChan)
        invariant forall c :: c in found <==> c in all[..i] && c in failing
        invariant forall j, k :: 0 <= j < k < |found| ==> found[j] != found[k]
      {
        if all[i] in failing {
          assert all[i] !in all[..i];
          found := found + [all[i]];
        }
        i := i + 1;
      }
      i := 0;
      while i < |found|
        invariant 0 <= i <= |found| && messageChan == EnqueueAll(old(messageChan), found[..i])
      {
        var _ := QueueMessage(M.Unregister(found[i], true));
        assert found[..i + 1][..i] == found[..i];
        i := i + 1;
      }
      assert found[..i] == found;
    }

    /** One turn of Hub.Run: the oldest message is taken and handled to the end. */
    method ProcessNext(l: nat, cursor: nat) returns (cleanup: bool)
      requires Valid() && messageChan != [] && l !in loops
      requires messageChan[0].Register? ==> messageChan[0].c.send.open
      modifies this, messageChan[0].c
      ensures Valid() && messageChan == old(messageChan)[1..]
      ensures rooms == match old(messageChan)[0]
        case Register(c) => M.AddClient(old(rooms), c)
        case Unregister(c, _) => M.RemoveClient(old(rooms), c)
        case FromClient(_) => old(rooms)
      ensures Agrees(match old(messageChan)[0]
        case Register(c) => AfterRegister(old(rooms), old(Subs()), c, l, cursor)
        case Unregister(c, _) => AfterUnregister(old(rooms), old(Subs()), c)
        case FromClient(_) => old(Subs()))
      ensures var m := old(messageChan)[0];
        m.c.send == if m.Unregister? && M.IsRegistered(old(rooms), m.c) then Retire(old(m.c.send)) else old(m.c.send)
      ensures cleanup <==> old(messageChan)[0].Unregister? && rooms.Keys != old(rooms).Keys
    {
      var m := messageChan[0];
      messageChan := messageChan[1..];
      cleanup := false;
      match m
      case Register(c) => RegisterClient(c, l, cursor);
      case Unregister(c, _) => cleanup := UnregisterClient(c);
      case FromClient(_) =>
    }
  }
}
