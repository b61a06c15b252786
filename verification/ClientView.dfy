/** The room and the hub together: what a client that got a snapshot and then its
    room's messages shows, and exactly when that is the live board. A client starts from
    the snapshot's board and replays the actions it received by version. */
module ClientView {
  import opened Wrappers
  import opened Domain
  import opened Clients
  import opened Board
  import opened PersistenceExact
  import BoardSafety
  import Delivery
  import DeliveryCount
  import H = HubMachine
  import Membership
  import Persistence
  import R = RoomMachine
  import Snapshots

  // ----- any snapshot, any received actions ---------------------------------------------

  /** On the cell of `e` the view agrees with `e`: the newest action received there has
      its effect, or none was received and the snapshot shows it. */
  ghost predicate ViewShows(b: BoardState, received: set<R.Entry>, e: R.Entry) {
    || (exists w :: Top(received, w) && FieldOf(w) == FieldOf(e) && Effect(EditOf(w.action)) == Effect(EditOf(e.action)))
    || (Cell(b, FieldOf(e)) == Effect(EditOf(e.action)) && forall o :: o in received ==> FieldOf(o) != FieldOf(e))
  }

  lemma WritesAre(got: seq<R.Entry>, f: string)
    ensures Writes(R.Edits(got), f) <==> exists o :: o in got && FieldOf(o) == f
  {
    hide FieldKey;
    if Writes(R.Edits(got), f) {
      var i :| 0 <= i < |got| && R.Edits(got)[i].field == f;
      assert got[i] in got && FieldOf(got[i]) == f;
    }
    if exists o :: o in got && FieldOf(o) == f {
      var o :| o in got && FieldOf(o) == f;
      var i :| 0 <= i < |got| && got[i] == o;
      assert R.Edits(got)[i].field == f;
    }
  }

  /** The view has the received actions' cell where there is one, else the snapshot's. */
  lemma ViewCell(b: BoardState, got: seq<R.Entry>, f: string)
    ensures Cell(Replay(b, R.Edits(got)), f) ==
      if exists o :: o in got && FieldOf(o) == f then Cell(Replay(map[], R.Edits(got)), f) else Cell(b, f)
  {
    hide FieldOf;
    WritesAre(got, f);
    ReplayCell(b, map[], R.Edits(got), f);
  }

  lemma ViewAgrees(b: BoardState, got: seq<R.Entry>, e: R.Entry)
    requires ByVersion(R.Edits(got)) && VersionsIdentify(SetOf(R.Edits(got)))
    ensures Cell(Replay(b, R.Edits(got)), FieldOf(e)) == Effect(EditOf(e.action)) <==> ViewShows(b, SetOf(got), e)
  {
    hide FieldOf, R.Edits;
    ViewCell(b, got, FieldOf(e));
    SortedReplayIsLww(R.Edits(got));
    CellAgrees(got, Replay(map[], R.Edits(got)), e);
    if exists o :: o in got && FieldOf(o) == FieldOf(e) {
      var o :| o in got && FieldOf(o) == FieldOf(e);
      assert o in SetOf(got);
    } else {
      assert forall o :: o in SetOf(got) ==> o in got;
    }
  }

  /** On each cell with an action the view agrees with the final one, and the snapshot
      shows nothing on the other cells. */
  ghost predicate ViewRight(b: BoardState, received: set<R.Entry>, log: seq<R.Entry>) {
    && (forall e :: Top(SetOf(log), e) ==> ViewShows(b, received, e))
    && (forall f :: (forall o :: o in log ==> FieldOf(o) != f) ==> f !in b)
  }

  /** Cell by cell, for the cells that have an action and for those that have none. */
  lemma ViewCells(b: BoardState, got: seq<R.Entry>, log: seq<R.Entry>)
    requires ByVersion(R.Edits(got)) && VersionsIdentify(SetOf(R.Edits(got)))
    requires SetOf(got) <= SetOf(log)
    ensures forall e :: Cell(Replay(b, R.Edits(got)), FieldOf(e)) == Effect(EditOf(e.action)) <==> ViewShows(b, SetOf(got), e)
    ensures forall f :: (forall o :: o in log ==> FieldOf(o) != f) ==> Cell(Replay(b, R.Edits(got)), f) == Cell(b, f)
  {
    hide FieldOf, R.Edits, ViewShows;
    forall e
      ensures Cell(Replay(b, R.Edits(got)), FieldOf(e)) == Effect(EditOf(e.action)) <==> ViewShows(b, SetOf(got), e)
    {
      ViewAgrees(b, got, e);
    }
    forall f | forall o :: o in log ==> FieldOf(o) != f
      ensures Cell(Replay(b, R.Edits(got)), f) == Cell(b, f)
    {
      forall o | o in got ensures o in log {
        assert o in SetOf(got) && o in SetOf(log);
      }
      ViewCell(b, got, f);
    }
  }

  /** Boards that agree with a log's final actions, and are empty elsewhere, are equal. */
  lemma SameFinals(v: BoardState, c: BoardState, log: seq<R.Entry>)
    requires forall e :: Top(SetOf(log), e) ==> Cell(v, FieldOf(e)) == Cell(c, FieldOf(e))
    requires forall f :: (forall o :: o in log ==> FieldOf(o) != f) ==> Cell(v, f) == Cell(c, f)
    ensures v == c
  {
    hide FieldOf;
    forall f ensures Cell(v, f) == Cell(c, f) {
      if exists o :: o in log && FieldOf(o) == f {
        var w := SomeTop(log, f);
      }
    }
    SameCells(v, c);
  }

  /** Whatever actions of the epoch a client received, and whatever its snapshot: its view
      is the live board if and only if on each cell with an action the newest received one
      has the effect of the final one, or none was received and the snapshot shows that
      effect, and the snapshot shows nothing on the other cells. */
  lemma ViewIsLiveExactly(s: R.Room, b: BoardState, got: seq<R.Entry>)
    requires R.Reachable(s) && ByVersion(R.Edits(got)) && SetOf(got) <= SetOf(R.Log(s))
    ensures Replay(b, R.Edits(got)) == s.redis.board <==> ViewRight(b, SetOf(got), R.Log(s))
  {
    hide FieldOf, R.Edits, ViewShows;
    var log, v := R.Log(s), Replay(b, R.Edits(got));
    BoardSafety.LiveBoard(s);
    BoardSafety.OrderedIdentifies(log);
    BoardSafety.EditsWithin(got, log);
    CellShows(log, s.redis.board);
    ViewCells(b, got, log);
    if ViewRight(b, SetOf(got), log) {
      SameFinals(v, s.redis.board, log);
    } else if v == s.redis.board {
      assert forall e :: Top(SetOf(log), e) ==> ViewShows(b, SetOf(got), e);
      forall f | forall o :: o in log ==> FieldOf(o) != f ensures f !in b {
        assert Cell(v, f) == Cell(b, f) && Cell(v, f) == None;
      }
      assert false;
    }
  }

  /** Any two version-sorted listings of the same received actions give one view. */
  lemma SameView(b: BoardState, es: seq<R.Entry>, fs: seq<R.Entry>)
    requires ByVersion(R.Edits(es)) && ByVersion(R.Edits(fs)) && SetOf(es) == SetOf(fs)
    requires VersionsIdentify(SetOf(R.Edits(es)))
    ensures Replay(b, R.Edits(es)) == Replay(b, R.Edits(fs))
  {
    hide FieldOf, R.Edits;
    BoardSafety.SameEdits(es, fs);
    SortedListingsAgree(R.Edits(es), R.Edits(fs));
    forall f ensures Cell(Replay(b, R.Edits(es)), f) == Cell(Replay(b, R.Edits(fs)), f) {
      ViewCell(b, es, f);
      ViewCell(b, fs, f);
      assert forall o :: o in es <==> o in SetOf(es);
      assert forall o :: o in fs <==> o in SetOf(fs);
    }
    SameCells(Replay(b, R.Edits(es)), Replay(b, R.Edits(fs)));
  }

  // ----- the two machines joined ------------------------------------------------------------

  /** The room's publications are what the hub's subscribers can hear. */
  ghost predicate Joint(s: R.Room, h: H.Hub) {
    var p := H.TopicOf(h, s.id).published;
    |p| == |s.acts.published| && forall i :: 0 <= i < |p| ==> p[i] == s.acts.published[i].action
  }

  /** The client was written this action, or holds it. */
  ghost predicate Received(s: R.Room, h: H.Hub, c: Client, e: R.Entry)
    requires c in h.net.clients
  {
    exists i: nat :: i in Delivery.Holds(h.net.clients[c]) && i < |s.acts.published| && s.acts.published[i] == e
  }

  /** A loop of the room received this action after the client was registered, and it is
      another user's. */
  ghost predicate Reached(s: R.Room, h: H.Hub, c: Client, e: R.Entry)
    requires c in h.net.clients
  {
    var heard := H.TopicOf(h, s.id).heard;
    exists k: nat :: h.net.clients[c].joined <= k < |heard| && heard[k].action.userID != c.userID
                     && heard[k].at < |s.acts.published| && s.acts.published[heard[k].at] == e
  }

  /** Whatever a client receives was applied to its room. */
  lemma ReceivedWasApplied(s: R.Room, h: H.Hub, c: Client, e: R.Entry)
    requires R.Reachable(s) && c in h.net.clients && Received(s, h, c, e)
    ensures e.epoch < |s.logs| && e in s.logs[e.epoch]
  {
    Persistence.Always(s);
    var i: nat :| i in Delivery.Holds(h.net.clients[c]) && i < |s.acts.published| && s.acts.published[i] == e;
    assert s.acts.published[i] in s.acts.published;
  }

  /** No loop is about to offer this client a message, and none of this action's
      publications found its buffer full. */
  ghost predicate Delivered(s: R.Room, h: H.Hub, c: Client, e: R.Entry)
    requires c in h.net.clients
  {
    && DeliveryCount.InFlight(h.subs, c) == {}
    && forall i :: i in h.net.clients[c].dropped && i < |s.acts.published| ==> s.acts.published[i] != e
  }

  /** Then, if it reached a registered client's room, the client has received it. */
  lemma ReachedWasReceived(s: R.Room, es: seq<H.Event>, c: Client, e: R.Entry)
    requires var h := H.Run(es);
      && c in h.net.clients && H.IsRegistered(h.net.rooms, c) && c.roomID == s.id
      && Delivered(s, h, c, e) && Reached(s, h, c, e)
    ensures Received(s, H.Run(es), c, e)
  {
    var h := H.Run(es);
    var heard := H.TopicOf(h, s.id).heard;
    var k: nat :| h.net.clients[c].joined <= k < |heard| && heard[k].action.userID != c.userID
                  && heard[k].at < |s.acts.published| && s.acts.published[heard[k].at] == e;
    DeliveryCount.EveryPublicationHandled(es, c, k);
    forall l ensures !DeliveryCount.FacingAt(h.subs, l, c, heard[k].at) {
      assert DeliveryCount.Facing(h.subs, l, c) <==> l in DeliveryCount.InFlight(h.subs, c);
    }
  }

  /** What this client replays on top of its snapshot. */
  ghost predicate Replays(s: R.Room, h: H.Hub, c: Client, version: nat, got: seq<R.Entry>)
    requires s.logs != [] && c in h.net.clients
  {
    && ByVersion(R.Edits(got))
    && forall e :: e in got <==> Received(s, h, c, e) && e.epoch == R.Epoch(s) && e.action.version > version
  }

  lemma {:induction false} AboveAre(log: seq<R.Entry>, version: nat, e: R.Entry)
    ensures e in Snapshots.Above(log, version) <==> e in log && e.action.version > version
  {
    if log != [] {
      var n := |log| - 1;
      AboveAre(log[..n], version, e);
      assert log == log[..n] + [log[n]];
    }
  }

  /** A registered client got an initial snapshot of this epoch, and every later applied
      action was published, received by a loop of its room after the registration, not its
      own user's, not dropped, and is in no loop's hands. Then what it shows is the live board
      if and only if each cell is written by an action above the snapshot's version or was
      left unchanged by the actions applied between the snapshot's two reads. */
  lemma CaughtUpExactly(s: R.Room, es: seq<H.Event>, c: Client, t: R.Taken, got: seq<R.Entry>)
    requires R.Reachable(s) && Joint(s, H.Run(es))
    requires var h := H.Run(es);
      c in h.net.clients && H.IsRegistered(h.net.rooms, c) && c.roomID == s.id
    requires t in s.snaps.saved && t.b.epoch == t.v.epoch == R.Epoch(s)
    requires forall e :: e in R.Log(s) && e.action.version > t.snap.version ==>
               Reached(s, H.Run(es), c, e) && Delivered(s, H.Run(es), c, e)
    requires Replays(s, H.Run(es), c, t.snap.version, got)
    ensures t.v.at <= |R.Log(s)|
    ensures var later := R.Edits(Snapshots.Above(R.Log(s), t.snap.version));
            var atVersionRead := Replay(map[], R.Edits(R.Log(s)[..t.v.at]));
            Replay(t.snap.state, R.Edits(got)) == s.redis.board
            <==> forall f :: Writes(later, f) || Cell(t.snap.state, f) == Cell(atVersionRead, f)
  {
    hide FieldKey, R.Edits, Received, Reached, Delivered;
    var log, above := R.Log(s), Snapshots.Above(R.Log(s), t.snap.version);
    BoardSafety.Always(s);
    BoardSafety.LiveBoard(s);
    Snapshots.CatchUpByVersion(s, t);
    assert BoardSafety.LogOk(log, R.Epoch(s), s.id);
    forall e ensures e in got <==> e in above {
      AboveAre(log, t.snap.version, e);
      if e in got {
        ReceivedWasApplied(s, H.Run(es), c, e);
      } else if e in above {
        ReachedWasReceived(s, es, c, e);
      }
    }
    assert SetOf(got) == SetOf(above);
    AboveSorted(s, t);
    BoardSafety.OrderedIdentifies(above);
    BoardSafety.SameEdits(got, above);
    SameView(t.snap.state, got, above);
  }

  lemma AboveSorted(s: R.Room, t: R.Taken)
    requires R.Reachable(s) && t in s.snaps.saved && t.b.epoch == t.v.epoch == R.Epoch(s)
    ensures BoardSafety.Ordered(Snapshots.Above(R.Log(s), t.snap.version))
  {
    Snapshots.Always(s);
    BoardSafety.LiveBoard(s);
    Snapshots.AboveIsSuffix(R.Log(s), t.snap.version, t.v.at);
  }

  // ----- a client that came too late ------------------------------------------------------

  /** A snapshot of the empty board is saved. */
  lemma SavedEmpty() returns (s: R.Room)
    ensures R.Reachable(s) && s.logs == [[]] && s.redis == R.Init(7, 0).redis && s.acts == R.Init(7, 0).acts && s.id == 7
    ensures s.bumps == 0
    ensures s.snaps.saved == [R.Taken(Snapshot(7, map[], 0, 0), R.BoardRead(0, 0, map[]), R.VersionRead(0, 0, 0))]
  {
    var e0, e1 := R.OnSnapshot(R.ReadBoard(0, true)), R.OnSnapshot(R.ReadVersion(0, true));
    var e2, e3 := R.OnSnapshot(R.Stamp(0)), R.OnSnapshot(R.Save(0, 0, Answered));
    R.InitReachable(7, 0);
    var s0 := R.Step(R.Init(7, 0), e0);
    R.StepReachable(R.Init(7, 0), e0);
    var s1 := R.Step(s0, e1);
    R.StepReachable(s0, e1);
    var s2 := R.Step(s1, e2);
    R.StepReachable(s1, e2);
    s := R.Step(s2, e3);
    R.StepReachable(s2, e3);
  }

  /** Then a draw is applied. */
  lemma AppliedAfter() returns (s: R.Room)
    ensures R.Reachable(s) && |s.logs| == 1 && |R.Log(s)| == 1 && s.id == 7
    ensures s.redis.board != map[] && s.acts.threads == map[0 := R.Applied(R.Log(s)[0])] && s.acts.published == []
    ensures s.snaps.saved == [R.Taken(Snapshot(7, map[], 0, 0), R.BoardRead(0, 0, map[]), R.VersionRead(0, 0, 0))]
  {
    hide FieldKey;
    var e0 := R.OnAction(R.Receive(0, R.Incoming(1, "draw", DrawData(0, 0, "red"))));
    var e1, e2 := R.OnAction(R.Increment(0, Answered)), R.OnAction(R.RunScript(0, Answered));
    var s0 := SavedEmpty();
    var s1 := R.Step(s0, e0);
    R.StepReachable(s0, e0);
    var s2 := R.Step(s1, e1);
    R.StepReachable(s1, e1);
    s := R.Step(s2, e2);
    R.StepReachable(s2, e2);
    assert FieldKey(0, 0) in s.redis.board;
  }

  /** And published. */
  lemma PublishedAfter() returns (s: R.Room)
    ensures R.Reachable(s) && |s.logs| == 1 && |R.Log(s)| == 1 && s.id == 7
    ensures s.redis.board != map[] && s.acts.published == [R.Log(s)[0]]
    ensures s.snaps.saved == [R.Taken(Snapshot(7, map[], 0, 0), R.BoardRead(0, 0, map[]), R.VersionRead(0, 0, 0))]
  {
    hide FieldKey, R.DoApply, R.DoIncrement, R.DoReceive, R.DoTrim, R.DoEnqueue, R.DoWork, R.SnapshotStep;
    var e0, e1 := R.OnAction(R.PushHistory(0, false)), R.OnAction(R.Publish(0, true));
    var s0 := AppliedAfter();
    var s1 := R.Step(s0, e0);
    R.StepReachable(s0, e0);
    s := R.Step(s1, e1);
    R.StepReachable(s1, e1);
  }

  /** A client registers after that publication. */
  lemma JoinedAfter(c: Client, a: Action) returns (es: seq<H.Event>)
    ensures var h := H.Run(es);
      && H.IsRegistered(h.net.rooms, c) && h.net.clients == map[c := H.ClientState(FRESH, [], [], [], 0, 0, 0)]
      && h.subs.loops == map[] && H.TopicOf(h, c.roomID) == H.Topic([a], []) && h.crash == H.NoCrash
  {
    var publish, connect, process := H.PublishTo(c.roomID, a), H.OnClient(H.Connect(c)), H.OnMain(H.Process);
    Membership.RunSnoc([], publish);
    Membership.RunSnoc([] + [publish], connect);
    Membership.RunSnoc([] + [publish] + [connect], process);
    es := [] + [publish] + [connect];
    assert H.Run(es).net.queue == [H.Register(c)];
    es := es + [process];
  }

  /** The condition that every later action reached the client's room after it registered
      cannot be dropped: the snapshot is older than a publication that the client came too
      late for, and what the client shows is not the live board. */
  lemma LateClientMissesTheDraw(c: Client) returns (s: R.Room, es: seq<H.Event>, t: R.Taken)
    requires c.roomID == 7
    ensures R.Reachable(s) && Joint(s, H.Run(es)) && c.roomID == s.id
    ensures var h := H.Run(es);
      && c in h.net.clients && H.IsRegistered(h.net.rooms, c)
      && h.net.clients[c].dropped == [] && !H.Broadcasting(h.subs)
    ensures t in s.snaps.saved && t.b.epoch == t.v.epoch == R.Epoch(s) && t.b.at == t.v.at
    ensures Replays(s, H.Run(es), c, t.snap.version, []) && Replay(t.snap.state, R.Edits([])) != s.redis.board
  {
    hide FieldKey;
    s := PublishedAfter();
    es := JoinedAfter(c, s.acts.published[0].action);
    t := s.snaps.saved[0];
    assert Delivery.Holds(H.Run(es).net.clients[c]) == [];
  }
}
