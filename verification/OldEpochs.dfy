/** Snapshots that outlive a cleanup: the table and pending cache writes keep versions
    of older epochs, while the counter starts again. */
module OldEpochs {
  import opened Wrappers
  import opened Domain
  import opened RoomMachine
  import opened Snapshots
  import BoardSafety
  import Cache
  import ClientView
  import RoomData

  /** A cleanup forgets all that Redis had of the room, and nothing else: what goroutines,
      queue and tables have stays, and the older logs are those of closed epochs. */
  lemma CleanupForgets(s: Room)
    requires Reachable(s)
    ensures var s' := Step(s, Cleanup);
      && Reachable(s') && s'.redis == RoomData.RoomData(map[], 0, [], None, None)
      && Epoch(s') == Epoch(s) + 1 && Log(s') == [] && s'.logs[..|s.logs|] == s.logs && s'.now == s.now
      && s'.snaps == s.snaps && s'.acts == s.acts.(pushes := s'.acts.pushes, slack := s'.acts.slack)
  {
    StepReachable(s, Cleanup);
  }

  /** A saved snapshot is ahead of the live counter if and only if its version was read
      before the last cleanup and the increments since do not make up for it. */
  lemma AheadExactly(s: Room, t: Taken)
    requires Reachable(s) && t in s.snaps.saved
    ensures t.snap.version > s.redis.version <==> t.v.epoch < Epoch(s) && s.bumps + |Log(s)| < t.snap.version
  {
    SavedSnapshotMeans(s, t);
    Always(s);
    BoardSafety.LiveBoard(s);
  }

  /** And so for whatever a client is served, be it cached or read from the table. */
  lemma ServedAheadExactly(s: Room, q: nat) returns (t: Taken)
    requires Reachable(s) && q in s.snaps.queries && s.snaps.queries[q].Served?
    ensures t in s.snaps.saved && t.snap == s.snaps.queries[q].snap
    ensures t.snap.version > s.redis.version <==> t.v.epoch < Epoch(s) && s.bumps + |Log(s)| < t.snap.version
  {
    Cache.ServesOnlySaved(s);
    var i :| 0 <= i < |s.snaps.saved| && s.snaps.saved[i].snap == s.snaps.queries[q].snap;
    t := s.snaps.saved[i];
    AheadExactly(s, t);
  }

  /** Asking for the actions above a version gets all of the live log if and only if the
      log's first action is above it, and none if the version is not below the counter. */
  lemma AsksForAllExactly(s: Room, version: nat)
    requires Reachable(s)
    ensures Above(Log(s), version) == Log(s) <==> Log(s) == [] || Log(s)[0].action.version > version
    ensures version >= s.redis.version ==> Above(Log(s), version) == []
  {
    hide Above;
    var log := Log(s);
    BoardSafety.Always(s);
    BoardSafety.LiveBoard(s);
    if log == [] || log[0].action.version > version {
      AboveIsSuffix(log, version, 0);
    } else {
      ClientView.AboveAre(log, version, log[0]);
    }
    if version >= s.redis.version {
      AboveIsSuffix(log, version, |log|);
    }
  }

  // ----- a run in which an old snapshot hides a draw ----------------------------------------

  /** A red draw and a lost increment: the counter is 3. */
  lemma RedAtThree() returns (s: Room)
    ensures Reachable(s) && |s.logs| == 1 && |Log(s)| == 1 && s.id == 7 && s.now == 0
    ensures s.redis == s.redis.(board := map[FieldKey(0, 0) := "red"], version := 3)
    ensures s.snaps == Init(7, 0).snaps && 2 !in s.acts.threads
  {
    hide FieldKey;
    var i := Incoming(1, "draw", DrawData(0, 0, "red"));
    var e0, e1, e2 := OnAction(Receive(0, i)), OnAction(Increment(0, Answered)), OnAction(RunScript(0, Answered));
    InitReachable(7, 0);
    var s0 := Step(Init(7, 0), e0);
    StepReachable(Init(7, 0), e0);
    var s1 := Step(s0, e1);
    StepReachable(s0, e1);
    var s2 := Step(s1, e2);
    StepReachable(s1, e2);
    s := LostIncrement(s2, i);
  }

  lemma LostIncrement(s: Room, i: Incoming) returns (s': Room)
    requires Reachable(s) && s.logs != [] && 1 !in s.acts.threads && i.Valid()
    ensures Reachable(s') && s'.redis == s.redis.(version := s.redis.version + 1) && s'.logs == s.logs && s'.id == s.id
    ensures s'.snaps == s.snaps && s'.now == s.now && s'.acts.threads.Keys == s.acts.threads.Keys + {1}
  {
    var e0, e1 := OnAction(Receive(1, i)), OnAction(Increment(1, Failed(true)));
    var s0 := Step(s, e0);
    StepReachable(s, e0);
    s' := Step(s0, e1);
    StepReachable(s0, e1);
  }

  /** It is saved in a snapshot. */
  lemma RedSaved() returns (s: Room)
    ensures Reachable(s) && |s.logs| == 1 && |Log(s)| == 1 && s.id == 7
    ensures |s.snaps.saved| == 1 && s.snaps.queries == map[] && 1 !in s.snaps.writes && 2 !in s.acts.threads
    ensures s.snaps.saved[0].snap == Snapshot(7, map[FieldKey(0, 0) := "red"], 0, 3)
  {
    hide FieldKey, ActionStep;
    var e0, e1 := OnSnapshot(ReadBoard(0, true)), OnSnapshot(ReadVersion(0, true));
    var e2, e3 := OnSnapshot(Stamp(0)), OnSnapshot(Save(0, 0, Answered));
    var s0 := RedAtThree();
    var s1 := Step(s0, e0);
    StepReachable(s0, e0);
    var s2 := Step(s1, e1);
    StepReachable(s1, e1);
    var s3 := Step(s2, e2);
    StepReachable(s2, e2);
    s := Step(s3, e3);
    StepReachable(s3, e3);
  }

  /** The room is cleaned up, and a new client's blue draw gets version 2. */
  lemma BlueAfterCleanup() returns (s: Room)
    ensures Reachable(s) && |s.logs| == 2 && |Log(s)| == 1 && s.redis.version == 2 && s.redis.cache == None
    ensures s.redis.board == map[FieldKey(0, 0) := "blue"]
    ensures |s.snaps.saved| == 1 && s.snaps.queries == map[] && 1 !in s.snaps.writes
    ensures s.snaps.saved[0].snap == Snapshot(7, map[FieldKey(0, 0) := "red"], 0, 3)
  {
    hide FieldKey;
    var e0 := OnAction(Receive(2, Incoming(2, "draw", DrawData(0, 0, "blue"))));
    var e1, e2 := OnAction(Increment(2, Answered)), OnAction(RunScript(2, Answered));
    var s0 := RedSaved();
    var s1 := Step(s0, Cleanup);
    StepReachable(s0, Cleanup);
    var s2 := Step(s1, e0);
    StepReachable(s1, e0);
    var s3 := Step(s2, e1);
    StepReachable(s2, e1);
    s := Step(s3, e2);
    StepReachable(s3, e2);
  }

  /** A client is served a snapshot ahead of the counter, asks for nothing above it, and
      shows red where the live board is blue. */
  lemma OldSnapshotHidesTheDraw() returns (s: Room)
    ensures Reachable(s) && 0 in s.snaps.queries && s.snaps.queries[0].Served?
    ensures var snap := s.snaps.queries[0].snap;
      && snap.version > s.redis.version && |Log(s)| == 1 && Above(Log(s), snap.version) == []
      && snap.state != s.redis.board
  {
    hide FieldKey;
    var e0, e1 := OnSnapshot(QueryCache(0, true)), OnSnapshot(QueryDatabase(0, 1, true));
    var s0 := BlueAfterCleanup();
    var s1 := Step(s0, e0);
    StepReachable(s0, e0);
    s := Step(s1, e1);
    StepReachable(s1, e1);
    assert s.snaps.queries[0].snap.state[FieldKey(0, 0)] == "red";
    AsksForAllExactly(s, 3);
  }
}
