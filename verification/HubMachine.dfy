/** The hub under concurrency: the message loop, the subscriber loops, the client
    pumps and the cleanup sweep, one lock region or channel operation at a time.

    As in RoomMachine, `Step` is total and a run is any sequence of events. The
    fields `topics`, `gone`, `unclean`, `contended`, `crash`, the client logs and the
    sets of the sweep only record what happened. */
module HubMachine {
  import opened Domain
  import opened Clients

  const QUEUE: nat := 512

  datatype HubMessage =
    | Register(c: Client)
    | Unregister(c: Client, bySweep: bool)
    | FromClient(c: Client)

  /** A client's channel, what its pump has written, which of the room's action
      messages entered its buffer, which found it full, how many messages the room's
      loops had received when it was registered, and how often an unregistration got as
      far as its channel and closed it. */
  datatype ClientState = ClientState(
    chan: Chan, written: seq<Payload>, entered: seq<nat>, dropped: seq<nat>, joined: nat,
    retired: nat, closes: nat)

  datatype Phase = Running | Sending(at: nat, remaining: set<Client>) | Exiting | Dead

  /** A subscriber goroutine; `cursor` is the first publication it may still receive. */
  datatype Loop = Loop(room: nat, cancelled: bool, cursor: nat, phase: Phase) {
    predicate Live() {
      phase.Running? || phase.Sending?
    }
  }

  /** Where the message loop is inside a register or unregister. */
  datatype Pc = Idle | Starting(room: nat) | Stopping(room: nat)

  /** A message received by a subscriber loop, and its position among the publications. */
  datatype Heard = Heard(at: nat, action: Action)

  datatype Topic = Topic(published: seq<Action>, heard: seq<Heard>)

  datatype Stage = Resting | Pinging(todo: set<Client>, found: seq<Client>) | Queueing(rest: seq<Client>)

  /** The cleanup sweep; `failed` and `dropped` are about the current or last one. */
  datatype Sweep = Sweep(stage: Stage, failed: set<Client>, dropped: set<Client>)

  datatype Crash = NoCrash | BroadcastOnClosed | ReplyOnClosed

  /** The rooms map, every client made so far, and the message channel. */
  datatype Net = Net(
    rooms: map<nat, set<Client>>,
    clients: map<Client, ClientState>,
    queue: seq<HubMessage>)

  /** The subscriptions map (a cancel function is named by its loop), the loops, and
      where the message loop is; the rooms where a loop died by itself, StopAll removed
      an entry, or a subscription was opened before the earlier loops were dead; and the
      rooms where one was opened beside a live loop. */
  datatype Subs = Subs(
    entries: map<nat, nat>,
    loops: map<nat, Loop>,
    pc: Pc,
    unclean: set<nat>,
    contended: set<nat>)

  datatype Hub = Hub(
    net: Net,
    subs: Subs,
    topics: map<nat, Topic>,
    sweep: Sweep,
    gone: set<Client>,
    crash: Crash)

  const INIT := Hub(Net(map[], map[], []), Subs(map[], map[], Idle, {}, {}), map[],
                    Sweep(Resting, {}, {}), {}, NoCrash)

  datatype ClientEvent =
    | Connect(c: Client)
    | SendAction(c: Client)
    | Leave(c: Client)
    | Drain(c: Client)
    | Reply(c: Client, p: Payload)

  datatype LoopEvent =
    | Receive(l: nat, at: nat)
    | SendTo(l: nat, c: Client)
    | Finish(l: nat)
    | Observe(l: nat)
    | Die(l: nat)
    | FinalDelete(l: nat)

  datatype MainEvent =
    | Process
    | Subscribe(l: nat)
    | Unsubscribe
    | StopAll

  datatype SweepEvent =
    | Scan
    | Ping(c: Client, ok: bool)
    | Collect
    | QueueNext

  datatype Event =
    | OnClient(ce: ClientEvent)
    | OnLoop(le: LoopEvent)
    | OnMain(me: MainEvent)
    | OnSweep(se: SweepEvent)
    | PublishTo(room: nat, action: Action)

  function TopicOf(s: Hub, r: nat): Topic {
    if r in s.topics then s.topics[r] else Topic([], [])
  }

  /** QueueMessage: non-blocking, false when the queue is full. */
  function Enqueue(q: seq<HubMessage>, m: HubMessage): seq<HubMessage> {
    if |q| < QUEUE then q + [m] else q
  }

  function Post(n: Net, m: HubMessage): Net {
    n.(queue := Enqueue(n.queue, m))
  }

  function SetClient(n: Net, c: Client, st: ClientState): Net {
    n.(clients := n.clients[c := st])
  }

  // ----- clients -----------------------------------------------------------

  /** The handler makes a client and queues its registration; if the queue is full
      the connection is closed and the client never heard of again. */
  function DoConnect(n: Net, c: Client): Net {
    if c in n.clients then n
    else Post(SetClient(n, c, ClientState(FRESH, [], [], [], 0, 0, 0)), Register(c))
  }

  /** ReadPump's action messages, and its exit; a queue that stays full for a second
      loses the unregistration. */
  function DoPost(n: Net, m: HubMessage): Net {
    if m.c in n.clients then Post(n, m) else n
  }

  function DoDrain(n: Net, c: Client): Net {
    if c in n.clients && n.clients[c].chan.buffer != [] then
      var st := n.clients[c];
      SetClient(n, c, st.(chan := st.chan.(buffer := st.chan.buffer[1..]), written := st.written + [st.chan.buffer[0]]))
    else n
  }

  /** The initial snapshot and the error reply are sent without the rooms lock. */
  function DoReply(s: Hub, c: Client, p: Payload): Hub {
    if c in s.net.clients && !p.ActionMsg? then
      var st := s.net.clients[c];
      if st.chan.open then s.(net := SetClient(s.net, c, st.(chan := TrySend(st.chan, p))))
      else s.(crash := ReplyOnClosed)
    else s
  }

  function ClientStep(s: Hub, ev: ClientEvent): Hub {
    match ev
    case Connect(c) => s.(net := DoConnect(s.net, c))
    case SendAction(c) => s.(net := DoPost(s.net, FromClient(c)))
    case Leave(c) => s.(net := DoPost(s.net, Unregister(c, false)))
    case Drain(c) => s.(net := DoDrain(s.net, c))
    case Reply(c, p) => DoReply(s, c, p)
  }

  // ----- subscriber loops ----------------------------------------------------

  function SetPhase(u: Subs, l: nat, p: Phase): Subs
    requires l in u.loops
  {
    u.(loops := u.loops[l := u.loops[l].(phase := p)])
  }

  /** The clients of a room other than the sender. */
  function Others(rooms: map<nat, set<Client>>, r: nat, userID: nat): set<Client> {
    if r in rooms then set c | c in rooms[r] && c.userID != userID else {}
  }

  /** A message arrives and the rooms read lock is taken. */
  function DoReceive(s: Hub, l: nat, at: nat): Hub {
    if l in s.subs.loops && s.subs.loops[l].phase.Running?
       && s.subs.loops[l].cursor <= at < |TopicOf(s, s.subs.loops[l].room).published| then
      var loop := s.subs.loops[l];
      var topic := TopicOf(s, loop.room);
      var a := topic.published[at];
      var sending := Sending(at, Others(s.net.rooms, loop.room, a.userID));
      s.(subs := s.subs.(loops := s.subs.loops[l := loop.(cursor := at + 1, phase := sending)]),
         topics := s.topics[loop.room := topic.(heard := topic.heard + [Heard(at, a)])])
    else s
  }

  predicate MaySend(s: Hub, l: nat, c: Client) {
    && l in s.subs.loops && s.subs.loops[l].phase.Sending? && c in s.subs.loops[l].phase.remaining
    && c in s.net.clients && s.subs.loops[l].phase.at < |TopicOf(s, s.subs.loops[l].room).published|
  }

  /** What one offered action message does to a client. */
  function Offered(st: ClientState, at: nat, a: Action): ClientState {
    if Full(st.chan) then st.(dropped := st.dropped + [at])
    else st.(chan := TrySend(st.chan, ActionMsg(at, a)), entered := st.entered + [at])
  }

  function DoSendTo(s: Hub, l: nat, c: Client): Hub {
    if MaySend(s, l, c) then
      var loop, st := s.subs.loops[l], s.net.clients[c];
      var at := loop.phase.at;
      if !st.chan.open then s.(crash := BroadcastOnClosed)
      else
        s.(net := SetClient(s.net, c, Offered(st, at, TopicOf(s, loop.room).published[at])),
           subs := SetPhase(s.subs, l, Sending(at, loop.phase.remaining - {c})))
    else s
  }

  /** The read lock is released once every client was tried. */
  function DoFinish(u: Subs, l: nat): Subs {
    if l in u.loops && u.loops[l].phase.Sending? && u.loops[l].phase.remaining == {} then SetPhase(u, l, Running)
    else u
  }

  function DoObserve(u: Subs, l: nat): Subs {
    if l in u.loops && u.loops[l].phase.Running? && u.loops[l].cancelled then SetPhase(u, l, Exiting) else u
  }

  /** The subscription fails or the Pub/Sub channel closes. */
  function DoDie(u: Subs, l: nat): Subs {
    if l in u.loops && u.loops[l].phase.Running? then
      SetPhase(u, l, Exiting).(unclean := u.unclean + {u.loops[l].room})
    else u
  }

  /** The loop's last act removes its room's entry, whoever put it there. */
  function DoFinalDelete(u: Subs, l: nat): Subs {
    if l in u.loops && u.loops[l].phase.Exiting? then
      SetPhase(u, l, Dead).(entries := u.entries - {u.loops[l].room})
    else u
  }

  function LoopStep(s: Hub, ev: LoopEvent): Hub {
    match ev
    case Receive(l, at) => DoReceive(s, l, at)
    case SendTo(l, c) => DoSendTo(s, l, c)
    case Finish(l) => s.(subs := DoFinish(s.subs, l))
    case Observe(l) => s.(subs := DoObserve(s.subs, l))
    case Die(l) => s.(subs := DoDie(s.subs, l))
    case FinalDelete(l) => s.(subs := DoFinalDelete(s.subs, l))
  }

  // ----- the message loop ------------------------------------------------------

  /** Some loop holds the rooms read lock. */
  ghost predicate Broadcasting(u: Subs) {
    exists l :: l in u.loops && u.loops[l].phase.Sending?
  }

  function AddClient(rooms: map<nat, set<Client>>, c: Client): map<nat, set<Client>> {
    rooms[c.roomID := (if c.roomID in rooms then rooms[c.roomID] else {}) + {c}]
  }

  predicate IsRegistered(rooms: map<nat, set<Client>>, c: Client) {
    c.roomID in rooms && c in rooms[c.roomID]
  }

  /** A room that becomes empty leaves the map. */
  function RemoveClient(rooms: map<nat, set<Client>>, c: Client): map<nat, set<Client>> {
    if !IsRegistered(rooms, c) then rooms
    else if rooms[c.roomID] == {c} then rooms - {c.roomID}
    else rooms[c.roomID := rooms[c.roomID] - {c}]
  }

  function DoRegister(s: Hub, c: Client): Hub
    requires c in s.net.clients
  {
    var n := SetClient(s.net, c, s.net.clients[c].(joined := |TopicOf(s, c.roomID).heard|));
    var rooms := AddClient(n.rooms, c);
    s.(net := n.(rooms := rooms),
       subs := s.subs.(pc := if |rooms[c.roomID]| == 1 then Starting(c.roomID) else Idle))
  }

  /** The select of unregisterClient: receive what there is, or close. */
  function Retired(st: ClientState): ClientState {
    st.(chan := Retire(st.chan), retired := st.retired + 1,
        closes := st.closes + if st.chan.buffer == [] && st.chan.open then 1 else 0)
  }

  function DoUnregister(s: Hub, c: Client): Hub
    requires c in s.net.clients
  {
    var s' := s.(gone := s.gone + {c});
    if !IsRegistered(s.net.rooms, c) then s'
    else
      var st := s.net.clients[c];
      var rooms := RemoveClient(s.net.rooms, c);
      s'.(net := SetClient(s.net, c, Retired(st)).(rooms := rooms),
          subs := s.subs.(pc := if c.roomID in rooms then Idle else Stopping(c.roomID)))
  }

  ghost predicate MayProcess(s: Hub) {
    && s.subs.pc.Idle? && s.net.queue != [] && s.net.queue[0].c in s.net.clients
    && (s.net.queue[0].FromClient? || !Broadcasting(s.subs))
  }

  /** The loop takes the next message; changing the rooms needs the write lock. */
  ghost function DoProcess(s: Hub): Hub {
    if MayProcess(s) then
      var s' := s.(net := s.net.(queue := s.net.queue[1..]));
      match s.net.queue[0]
      case Register(c) => DoRegister(s', c)
      case Unregister(c, _) => DoUnregister(s', c)
      case FromClient(_) => s'
    else s
  }

  ghost predicate AllDead(u: Subs, r: nat) {
    forall k :: k in u.loops && u.loops[k].room == r ==> u.loops[k].phase.Dead?
  }

  ghost predicate SomeLive(u: Subs, r: nat) {
    exists k :: k in u.loops && u.loops[k].room == r && u.loops[k].Live()
  }

  /** startRoomSubscription: an existing entry is left alone. */
  ghost function DoSubscribe(u: Subs, l: nat, cursor: nat): Subs {
    if u.pc.Starting? && l !in u.loops then
      var r := u.pc.room;
      if r in u.entries then u.(pc := Idle)
      else
        Subs(u.entries[r := l], u.loops[l := Loop(r, false, cursor, Running)], Idle,
             if AllDead(u, r) then u.unclean else u.unclean + {r}, if SomeLive(u, r) then u.contended + {r} else u.contended)
    else u
  }

  /** stopRoomSubscription: a missing entry is only a warning. */
  function DoUnsubscribe(u: Subs): Subs {
    if u.pc.Stopping? then
      var r := u.pc.room;
      if r in u.entries && u.entries[r] in u.loops then
        var l := u.entries[r];
        u.(entries := u.entries - {r}, loops := u.loops[l := u.loops[l].(cancelled := true)], pc := Idle)
      else u.(pc := Idle)
    else u
  }

  /** StopAllSubscriptions cancels every entry's loop and empties the map. */
  function DoStopAll(u: Subs): Subs {
    u.(entries := map[],
       loops := map l | l in u.loops :: if l in u.entries.Values then u.loops[l].(cancelled := true) else u.loops[l],
       unclean := u.unclean + u.entries.Keys)
  }

  function Cursor(s: Hub): nat {
    if s.subs.pc.Starting? then |TopicOf(s, s.subs.pc.room).published| else 0
  }

  ghost function MainStep(s: Hub, ev: MainEvent): Hub {
    match ev
    case Process => DoProcess(s)
    case Subscribe(l) => s.(subs := DoSubscribe(s.subs, l, Cursor(s)))
    case Unsubscribe => s.(subs := DoUnsubscribe(s.subs))
    case StopAll => s.(subs := DoStopAll(s.subs))
  }

  // ----- the cleanup sweep -------------------------------------------------------

  ghost function Registered(rooms: map<nat, set<Client>>): set<Client> {
    set r, c | r in rooms && c in rooms[r] :: c
  }

  ghost function DoScan(w: Sweep, rooms: map<nat, set<Client>>): Sweep {
    if w.stage.Resting? then Sweep(Pinging(Registered(rooms), []), {}, {}) else w
  }

  function DoPing(w: Sweep, c: Client, ok: bool): Sweep {
    if w.stage.Pinging? && c in w.stage.todo then
      var todo := w.stage.todo - {c};
      if ok then w.(stage := Pinging(todo, w.stage.found))
      else Sweep(Pinging(todo, w.stage.found + [c]), w.failed + {c}, w.dropped)
    else w
  }

  function DoCollect(w: Sweep): Sweep {
    if w.stage.Pinging? && w.stage.todo == {} then w.(stage := Queueing(w.stage.found)) else w
  }

  function DoQueueNext(s: Hub): Hub {
    if s.sweep.stage.Queueing? then
      var w, rest := s.sweep, s.sweep.stage.rest;
      if rest == [] then s.(sweep := w.(stage := Resting))
      else
        var dropped := if |s.net.queue| < QUEUE then w.dropped else w.dropped + {rest[0]};
        s.(net := Post(s.net, Unregister(rest[0], true)),
           sweep := w.(stage := Queueing(rest[1..]), dropped := dropped))
    else s
  }

  ghost function SweepStep(s: Hub, ev: SweepEvent): Hub {
    match ev
    case Scan => s.(sweep := DoScan(s.sweep, s.net.rooms))
    case Ping(c, ok) => s.(sweep := DoPing(s.sweep, c, ok))
    case Collect => s.(sweep := DoCollect(s.sweep))
    case QueueNext => DoQueueNext(s)
  }

  // ----- runs ----------------------------------------------------------------------

  function DoPublish(s: Hub, r: nat, a: Action): Hub {
    s.(topics := s.topics[r := TopicOf(s, r).(published := TopicOf(s, r).published + [a])])
  }

  /** A panic ends the process. */
  ghost function Step(s: Hub, ev: Event): Hub {
    if !s.crash.NoCrash? then s
    else
      match ev
      case OnClient(e) => ClientStep(s, e)
      case OnLoop(e) => LoopStep(s, e)
      case OnMain(e) => MainStep(s, e)
      case OnSweep(e) => SweepStep(s, e)
      case PublishTo(r, a) => DoPublish(s, r, a)
  }

  ghost function Run(es: seq<Event>): Hub {
    if es == [] then INIT else Step(Run(es[..|es| - 1]), es[|es| - 1])
  }
}
