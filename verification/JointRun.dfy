/** One run of a room and a hub: what the room publishes is what the hub's subscribers
    can hear. A client that was registered before its snapshot's board was read is caught
    up when nothing since then was lost on the way to it. */
module JointRun {
  import opened Wrappers
  import opened Domain
  import opened Clients
  import opened Board
  import opened ClientView
  import BoardSafety
  import Delivery
  import DeliveryCount
  import H = HubMachine
  import Membership
  import Persistence
  import Provenance
  import R = RoomMachine
  import Snapshots

  datatype Both = Both(room: R.Room, hub: H.Hub)

  datatype JointEvent = OnRoom(re: R.Event) | OnHub(he: H.Event)

  /** What the hub sees of a step of the room: the publication, if it made one. */
  function Heard(before: R.Room, after: R.Room): seq<H.Event> {
    if |after.acts.published| > |before.acts.published| then
      [H.PublishTo(before.id, after.acts.published[|after.acts.published| - 1].action)]
    else []
  }

  predicate Foreign(s: R.Room, e: H.Event) {
    e.PublishTo? && e.room == s.id
  }

  /** Only the room itself publishes on its channel, and a panic of the hub ends the
      process with all its goroutines. */
  ghost function Step(j: Both, ev: JointEvent): Both
    requires j.room.logs != []
  {
    if !j.hub.crash.NoCrash? then j
    else
      match ev
      case OnRoom(e) =>
        var room := R.Step(j.room, e);
        Both(room, if Heard(j.room, room) == [] then j.hub else H.Step(j.hub, Heard(j.room, room)[0]))
      case OnHub(e) => if Foreign(j.room, e) then j else j.(hub := H.Step(j.hub, e))
  }

  ghost function Run(id: nat, now: int, es: seq<JointEvent>): (j: Both)
    ensures j.room.logs != []
  {
    if es == [] then Both(R.Init(id, now), H.INIT) else Step(Run(id, now, es[..|es| - 1]), es[|es| - 1])
  }

  // ----- each machine runs as before, and the publications agree -----------------------------

  lemma PublishedStep(s: R.Room, e: R.Event)
    requires s.logs != []
    ensures var s' := R.Step(s, e);
      && s'.id == s.id && s.acts.published <= s'.acts.published && |s'.acts.published| <= |s.acts.published| + 1
  {
    hide FieldKey;
  }

  lemma HubPublished(h: H.Hub, e: H.Event, r: nat)
    requires !(e.PublishTo? && e.room == r)
    ensures H.TopicOf(H.Step(h, e), r).published == H.TopicOf(h, r).published
  {
    hide H.AddClient, H.RemoveClient, H.IsRegistered;
  }

  lemma StepJoint(j: Both, ev: JointEvent)
    requires j.room.logs != [] && ClientView.Joint(j.room, j.hub)
    ensures ClientView.Joint(Step(j, ev).room, Step(j, ev).hub)
  {
    hide R.Step, FieldKey;
    if j.hub.crash.NoCrash? {
      match ev
      case OnRoom(e) => PublishedStep(j.room, e);
      case OnHub(e) =>
        if !Foreign(j.room, e) {
          HubPublished(j.hub, e, j.room.id);
        }
    }
  }

  /** A joint run is a run of the room, of its own events, and a run of the hub with the same
      publications. */
  lemma {:induction false} Projects(id: nat, now: int, es: seq<JointEvent>) returns (rs: seq<R.Event>, hs: seq<H.Event>)
    ensures var j := Run(id, now, es);
      && j.room == R.Run(R.Init(id, now), rs) && R.Reachable(j.room) && j.hub == H.Run(hs)
      && ClientView.Joint(j.room, j.hub) && j.room.id == id
    ensures forall i :: 0 <= i < |rs| ==> OnRoom(rs[i]) in es
  {
    if es == [] {
      rs, hs := [], [];
      R.InitReachable(id, now);
    } else {
      var before, ev := Run(id, now, es[..|es| - 1]), es[|es| - 1];
      rs, hs := Projects(id, now, es[..|es| - 1]);
      StepJoint(before, ev);
      assert es == es[..|es| - 1] + [ev];
      if before.hub.crash.NoCrash? {
        match ev
        case OnRoom(e) =>
          R.StepReachable(before.room, e);
          PublishedStep(before.room, e);
          RoomSnoc(id, now, rs, e);
          rs := rs + [e];
          var heard := Heard(before.room, R.Step(before.room, e));
          if heard != [] {
            Membership.RunSnoc(hs, heard[0]);
            hs := hs + [heard[0]];
          }
        case OnHub(e) =>
          if !Foreign(before.room, e) {
            Membership.RunSnoc(hs, e);
            hs := hs + [e];
          }
      }
    }
  }

  lemma RoomSnoc(id: nat, now: int, rs: seq<R.Event>, e: R.Event)
    ensures R.Run(R.Init(id, now), rs + [e]) == R.Step(R.Run(R.Init(id, now), rs), e)
  {
    hide R.Step;
    assert (rs + [e])[..|rs|] == rs;
  }

  /** Whatever a client of the room is sent was written by another user: it is the message
      of a reception of this run whose sender is not the client's user. */
  lemma NeverOwnAction(id: nat, now: int, es: seq<JointEvent>, c: Client, p: Payload) returns (t: nat, i: R.Incoming)
    requires c in Run(id, now, es).hub.net.clients && c.roomID == id && p.ActionMsg?
    requires var st := Run(id, now, es).hub.net.clients[c]; p in st.written + st.chan.buffer
    ensures OnRoom(R.OnAction(R.Receive(t, i))) in es
    ensures Provenance.IsMessage(p.action, id, i) && i.userID != c.userID
  {
    hide Step, Provenance.AppliedAt;
    var j := Run(id, now, es);
    var rs, hs := Projects(id, now, es);
    Delivery.OnlyOwnRoomsActions(hs, c);
    var e := j.room.acts.published[p.at];
    Persistence.Always(j.room);
    assert e in j.room.acts.published && Persistence.Logged(j.room, e);
    var n, m;
    t, n, m := Provenance.AppliedWasSent(id, now, rs, e.epoch, e);
    i := rs[n].a.input;
    assert OnRoom(rs[n]) in es;
  }

  // ----- what only grows -----------------------------------------------------------------------

  /** The second state is one the first can lead to. */
  ghost predicate Later(j: Both, j': Both, c: Client) {
    && j.room.logs != [] && |j.room.logs| <= |j'.room.logs| && j'.room.id == j.room.id
    && (forall k :: 0 <= k < |j.room.logs| ==> j.room.logs[k] <= j'.room.logs[k])
    && j.room.acts.published <= j'.room.acts.published
    && H.TopicOf(j.hub, j.room.id).heard <= H.TopicOf(j'.hub, j.room.id).heard
    && Kept(j.hub, j'.hub, c)
  }

  /** A registered client stays so or is gone, and keeps the moment it was registered. */
  ghost predicate Kept(h: H.Hub, h': H.Hub, c: Client) {
    && c in h.net.clients && c in h'.net.clients && h'.net.clients[c].joined == h.net.clients[c].joined
    && (H.IsRegistered(h'.net.rooms, c) || c in h'.gone)
  }

  lemma RoomLater(s: R.Room, e: R.Event)
    requires s.logs != []
    ensures var s' := R.Step(s, e); |s.logs| <= |s'.logs| && forall k :: 0 <= k < |s.logs| ==> s.logs[k] <= s'.logs[k]
  {
    hide FieldKey;
  }

  lemma HubHears(h: H.Hub, e: H.Event, r: nat)
    ensures H.TopicOf(h, r).heard <= H.TopicOf(H.Step(h, e), r).heard
  {
    hide H.AddClient, H.RemoveClient, H.IsRegistered;
  }

  lemma ProcessKept(h: H.Hub, c: Client)
    requires Membership.Inv(h) && c in h.net.clients && (H.IsRegistered(h.net.rooms, c) || c in h.gone)
    ensures Kept(h, H.DoProcess(h), c)
  {
    hide H.AddClient, H.RemoveClient, Membership.RoomsOk, Membership.SweepOk, Membership.LoopsOk;
    Delivery.ProcessUntouched(h, c);
  }

  lemma HubKept(h: H.Hub, e: H.Event, c: Client)
    requires Membership.Inv(h) && c in h.net.clients && (H.IsRegistered(h.net.rooms, c) || c in h.gone)
    ensures Kept(h, H.Step(h, e), c)
  {
    hide Membership.Inv, H.DoProcess, H.IsRegistered;
    match e
    case OnMain(Process) => ProcessKept(h, c);
    case OnClient(ce) => ClientKept(h, ce, c);
    case OnLoop(le) => LoopKept(h, le, c);
    case _ =>
  }

  lemma ClientKept(h: H.Hub, e: H.ClientEvent, c: Client)
    requires c in h.net.clients && (H.IsRegistered(h.net.rooms, c) || c in h.gone)
    ensures Kept(h, H.ClientStep(h, e), c)
  {
    hide H.IsRegistered;
  }

  lemma LoopKept(h: H.Hub, e: H.LoopEvent, c: Client)
    requires c in h.net.clients && (H.IsRegistered(h.net.rooms, c) || c in h.gone)
    ensures Kept(h, H.LoopStep(h, e), c)
  {
    hide H.IsRegistered;
  }

  lemma HubLater(h0: H.Hub, h: H.Hub, e: H.Event, r: nat, c: Client)
    requires Membership.Inv(h) && Kept(h0, h, c) && H.TopicOf(h0, r).heard <= H.TopicOf(h, r).heard
    ensures Kept(h0, H.Step(h, e), c) && H.TopicOf(h0, r).heard <= H.TopicOf(H.Step(h, e), r).heard
  {
    hide H.Step, Membership.Inv;
    HubKept(h, e, c);
    HubHears(h, e, r);
  }

  lemma StepLater(j0: Both, j: Both, ev: JointEvent, c: Client)
    requires Later(j0, j, c) && j.room.logs != [] && Membership.Inv(j.hub)
    ensures Later(j0, Step(j, ev), c)
  {
    hide R.Step, H.Step, Kept, Membership.Inv;
    if j.hub.crash.NoCrash? {
      match ev
      case OnRoom(e) =>
        PublishedStep(j.room, e);
        RoomLater(j.room, e);
        if Heard(j.room, R.Step(j.room, e)) != [] {
          HubLater(j0.hub, j.hub, Heard(j.room, R.Step(j.room, e))[0], j0.room.id, c);
        }
      case OnHub(e) =>
        if !Foreign(j.room, e) {
          HubLater(j0.hub, j.hub, e, j0.room.id, c);
        }
    }
  }

  lemma {:induction false} RunLater(id: nat, now: int, es: seq<JointEvent>, p: nat, c: Client)
    requires p <= |es|
    requires var h := Run(id, now, es[..p]).hub; c in h.net.clients && H.IsRegistered(h.net.rooms, c)
    ensures Later(Run(id, now, es[..p]), Run(id, now, es), c)
  {
    hide Step;
    if p == |es| {
      assert es[..p] == es;
    } else {
      var n := |es| - 1;
      assert es[..n][..p] == es[..p];
      RunLater(id, now, es[..n], p, c);
      var rs, hs := Projects(id, now, es[..n]);
      Membership.RunKeeps(hs);
      StepLater(Run(id, now, es[..p]), Run(id, now, es[..n]), es[n], c);
    }
  }

  /** What a loop heard is the publication at its position. */
  ghost predicate HeardOk(h: H.Hub, r: nat) {
    var topic := H.TopicOf(h, r);
    forall k :: 0 <= k < |topic.heard| ==>
      topic.heard[k].at < |topic.published| && topic.published[topic.heard[k].at] == topic.heard[k].action
  }

  lemma SameTopicHeard(h: H.Hub, h': H.Hub, r: nat)
    requires HeardOk(h, r) && H.TopicOf(h', r) == H.TopicOf(h, r)
    ensures HeardOk(h', r)
  {
  }

  lemma ReceiveHeard(h: H.Hub, l: nat, at: nat, r: nat)
    requires HeardOk(h, r)
    ensures HeardOk(H.DoReceive(h, l, at), r)
  {
  }

  lemma PublishHeard(h: H.Hub, q: nat, a: Action, r: nat)
    requires HeardOk(h, r)
    ensures HeardOk(H.DoPublish(h, q, a), r)
  {
    var topic, topic' := H.TopicOf(h, r), H.TopicOf(H.DoPublish(h, q, a), r);
    assert topic'.heard == topic.heard && topic.published <= topic'.published;
    forall k | 0 <= k < |topic.heard|
      ensures topic.heard[k].at < |topic'.published| && topic'.published[topic.heard[k].at] == topic.heard[k].action
    {
      assert topic'.published[topic.heard[k].at] == topic.published[topic.heard[k].at];
    }
  }

  lemma SameTopic(h: H.Hub, e: H.Event, r: nat)
    requires !e.PublishTo? && !(e.OnLoop? && e.le.Receive?)
    ensures H.TopicOf(H.Step(h, e), r) == H.TopicOf(h, r)
  {
    hide H.AddClient, H.RemoveClient, H.IsRegistered;
  }

  lemma StepHeard(h: H.Hub, e: H.Event, r: nat)
    requires HeardOk(h, r)
    ensures HeardOk(H.Step(h, e), r)
  {
    hide HeardOk, H.DoReceive, H.DoPublish;
    match e
    case PublishTo(q, a) => PublishHeard(h, q, a, r);
    case OnLoop(Receive(l, at)) => ReceiveHeard(h, l, at, r);
    case _ => SameTopic(h, e, r); SameTopicHeard(h, H.Step(h, e), r);
  }

  lemma {:induction false} RunHeard(hs: seq<H.Event>, r: nat)
    ensures HeardOk(H.Run(hs), r)
  {
    if hs != [] {
      RunHeard(hs[..|hs| - 1], r);
      StepHeard(H.Run(hs[..|hs| - 1]), hs[|hs| - 1], r);
    }
  }

  // ----- caught up -----------------------------------------------------------------------------

  /** An action logged later than `j0` was published later than `j0`. */
  lemma PublishedLater(j0: Both, j: Both, c: Client, e: R.Entry, i: nat)
    requires R.Reachable(j0.room) && R.Reachable(j.room) && Later(j0, j, c)
    requires R.Epoch(j0.room) == R.Epoch(j.room) && i < |j.room.acts.published| && j.room.acts.published[i] == e
    requires e in R.Log(j.room)[|R.Log(j0.room)|..]
    ensures |j0.room.acts.published| <= i
  {
    BoardSafety.Always(j.room);
    Persistence.Always(j0.room);
    var log0, log := R.Log(j0.room), R.Log(j.room);
    assert BoardSafety.LogOk(log, R.Epoch(j.room), j.room.id) && log0 <= log;
    var b :| |log0| <= b < |log| && log[b] == e;
    assert forall a :: 0 <= a < |log0| ==> log0[a] == log[a] && log[a].action.version < e.action.version;
    assert e !in log0 && e.epoch == R.Epoch(j0.room);
    forall k | 0 <= k < |j0.room.acts.published| ensures j.room.acts.published[k] != e {
      assert j0.room.acts.published[k] in j0.room.acts.published;
      assert Persistence.Logged(j0.room, j0.room.acts.published[k]);
    }
  }

  /** A loop received publication `i` after it had received the first `n` messages. */
  ghost predicate HeardSince(h: H.Hub, r: nat, n: nat, i: nat) {
    var heard := H.TopicOf(h, r).heard;
    exists k: nat :: n <= k < |heard| && heard[k].at == i
  }

  /** Since the first state the room's loops received every publication. */
  ghost predicate NothingSkipped(j0: Both, j: Both) {
    forall i: nat :: |j0.room.acts.published| <= i < |j.room.acts.published| ==>
      HeardSince(j.hub, j.room.id, |H.TopicOf(j0.hub, j.room.id).heard|, i)
  }

  /** One run, a moment `p` of it when the client was registered, and a snapshot of that
      epoch whose board was read no earlier: if since then every action above the snapshot's
      version was published, the room's loops skipped no publication, and none of those
      actions is the client's own, was dropped for it or is in a loop's hands, then what the
      client shows is the live board if and only if each cell is written by an action above
      the version or was left unchanged between the snapshot's two reads. */
  lemma CaughtUpOverRun(id: nat, now: int, es: seq<JointEvent>, p: nat, c: Client, t: R.Taken, got: seq<R.Entry>)
    requires p <= |es| && c.roomID == id
    requires var h := Run(id, now, es[..p]).hub; c in h.net.clients && H.IsRegistered(h.net.rooms, c)
    requires var j := Run(id, now, es);
      && c in j.hub.net.clients && H.IsRegistered(j.hub.net.rooms, c)
      && t in j.room.snaps.saved && t.b.epoch == t.v.epoch == R.Epoch(j.room)
    requires var j0 := Run(id, now, es[..p]).room; R.Epoch(j0) == t.b.epoch && |R.Log(j0)| <= t.b.at
    requires NothingSkipped(Run(id, now, es[..p]), Run(id, now, es))
    requires var j := Run(id, now, es);
      forall e :: e in R.Log(j.room) && e.action.version > t.snap.version ==>
        e in j.room.acts.published && e.action.userID != c.userID && Delivered(j.room, j.hub, c, e)
    requires Replays(Run(id, now, es).room, Run(id, now, es).hub, c, t.snap.version, got)
    ensures t.v.at <= |R.Log(Run(id, now, es).room)|
    ensures var s := Run(id, now, es).room;
            var later := R.Edits(Snapshots.Above(R.Log(s), t.snap.version));
            var atVersionRead := Replay(map[], R.Edits(R.Log(s)[..t.v.at]));
            Replay(t.snap.state, R.Edits(got)) == s.redis.board
            <==> forall f :: Writes(later, f) || Cell(t.snap.state, f) == Cell(atVersionRead, f)
  {
    var j0, j := Run(id, now, es[..p]), Run(id, now, es);
    var rs0, hs0 := Projects(id, now, es[..p]);
    var rs, hs := Projects(id, now, es);
    RunLater(id, now, es, p, c);
    RunHeard(hs, id);
    JoinedBefore(hs0, c);
    forall e | e in R.Log(j.room) && e.action.version > t.snap.version ensures Reached(j.room, j.hub, c, e) {
      LaterReached(j0, j, c, t, e);
    }
    CaughtUpExactly(j.room, hs, c, t, got);
  }

  /** A registered client joined no later than now. */
  lemma JoinedBefore(hs: seq<H.Event>, c: Client)
    requires c in H.Run(hs).net.clients && H.IsRegistered(H.Run(hs).net.rooms, c)
    ensures H.Run(hs).net.clients[c].joined <= |H.TopicOf(H.Run(hs), c.roomID).heard|
  {
    DeliveryCount.RunCounts(hs, c);
  }

  lemma LaterReached(j0: Both, j: Both, c: Client, t: R.Taken, e: R.Entry)
    requires R.Reachable(j0.room) && R.Reachable(j.room) && Later(j0, j, c) && c.roomID == j.room.id
    requires ClientView.Joint(j.room, j.hub) && HeardOk(j.hub, j.room.id) && NothingSkipped(j0, j)
    requires j0.hub.net.clients[c].joined <= |H.TopicOf(j0.hub, j.room.id).heard|
    requires t in j.room.snaps.saved && t.b.epoch == t.v.epoch == R.Epoch(j.room)
    requires R.Epoch(j0.room) == t.b.epoch && |R.Log(j0.room)| <= t.b.at
    requires e in R.Log(j.room) && e.action.version > t.snap.version
    requires e in j.room.acts.published && e.action.userID != c.userID
    ensures Reached(j.room, j.hub, c, e)
  {
    hide NothingSkipped, HeardOk, Later, ClientView.Joint;
    AboveIsLater(j0, j, t, e);
    var i :| 0 <= i < |j.room.acts.published| && j.room.acts.published[i] == e;
    PublishedLater(j0, j, c, e, i);
    HeardIsReached(j0, j, c, i);
  }

  /** An action above the version was logged after the version read, hence after `j0`. */
  lemma AboveIsLater(j0: Both, j: Both, t: R.Taken, e: R.Entry)
    requires R.Reachable(j.room) && j0.room.logs != [] && t in j.room.snaps.saved
    requires t.b.epoch == t.v.epoch == R.Epoch(j.room) && |R.Log(j0.room)| <= t.b.at
    requires e in R.Log(j.room) && e.action.version > t.snap.version
    ensures |R.Log(j0.room)| <= |R.Log(j.room)| && e in R.Log(j.room)[|R.Log(j0.room)|..]
  {
    Snapshots.Always(j.room);
    var log, n := R.Log(j.room), |R.Log(j0.room)|;
    var a :| 0 <= a < |log| && log[a] == e;
    assert a >= t.v.at >= t.b.at;
    assert log[n..][a - n] == e;
  }

  lemma HeardIsReached(j0: Both, j: Both, c: Client, i: nat)
    requires Later(j0, j, c) && ClientView.Joint(j.room, j.hub) && HeardOk(j.hub, j.room.id) && NothingSkipped(j0, j)
    requires j0.hub.net.clients[c].joined <= |H.TopicOf(j0.hub, j.room.id).heard|
    requires |j0.room.acts.published| <= i < |j.room.acts.published|
    requires j.room.acts.published[i].action.userID != c.userID
    ensures Reached(j.room, j.hub, c, j.room.acts.published[i])
  {
    var heard, n := H.TopicOf(j.hub, j.room.id).heard, |H.TopicOf(j0.hub, j.room.id).heard|;
    assert HeardSince(j.hub, j.room.id, n, i);
    var k: nat :| n <= k < |heard| && heard[k].at == i;
    assert heard[k].action == j.room.acts.published[i].action;
  }
}
