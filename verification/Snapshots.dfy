/** What a snapshot means: its board and its version are read by two commands,
    with any steps of other goroutines between them. */
module Snapshots {
  import opened Wrappers
  import opened Domain
  import opened RoomMachine
  import opened Board
  import BoardSafety

  ghost predicate BoardReadOk(s: Room, b: BoardRead) {
    && b.epoch < |s.logs| && b.at <= |s.logs[b.epoch]|
    && b.board == Replay(map[], Edits(s.logs[b.epoch][..b.at]))
  }

  /** The version read separates the actions applied before it from those after. */
  ghost predicate VersionReadOk(s: Room, v: VersionRead) {
    && v.epoch < |s.logs| && v.at <= |s.logs[v.epoch]|
    && (forall i :: 0 <= i < v.at ==> s.logs[v.epoch][i].action.version <= v.version)
    && (forall i :: v.at <= i < |s.logs[v.epoch]| ==> s.logs[v.epoch][i].action.version > v.version)
    && (v.epoch == Epoch(s) ==> v.version <= s.redis.version)
  }

  ghost predicate InOrder(b: BoardRead, v: VersionRead) {
    b.epoch <= v.epoch && (b.epoch == v.epoch ==> b.at <= v.at)
  }

  ghost predicate TakenOk(s: Room, t: Taken) {
    && BoardReadOk(s, t.b) && VersionReadOk(s, t.v) && InOrder(t.b, t.v)
    && t.snap.roomID == s.id && t.snap.state == t.b.board && t.snap.version == t.v.version
  }

  ghost predicate GenOk(s: Room, g: Gen) {
    match g
    case HasBoard(b) => BoardReadOk(s, b)
    case HasVersion(b, v) => BoardReadOk(s, b) && VersionReadOk(s, v) && InOrder(b, v)
    case Stamped(t) => TakenOk(s, t)
    case GenDone => true
  }

  ghost predicate Inv(s: Room) {
    && s.logs != []
    && (forall g :: g in s.snaps.gens ==> GenOk(s, s.snaps.gens[g]))
    && (forall i :: 0 <= i < |s.snaps.saved| ==> TakenOk(s, s.snaps.saved[i]))
  }

  /** The logs and the counter move on without touching what a reading saw. */
  ghost predicate LogsGrow(s: Room, s': Room)
    requires s.logs != []
  {
    || (s'.logs == s.logs && s'.redis.version >= s.redis.version)
    || (exists e: Entry :: e.action.version > s.redis.version && s'.redis.version >= s.redis.version
                     && s'.logs == s.logs[Epoch(s) := Log(s) + [e]])
    || s'.logs == s.logs + [[]]
  }

  lemma BoardReadStays(s: Room, s': Room, b: BoardRead)
    requires s.logs != [] && LogsGrow(s, s') && BoardReadOk(s, b)
    ensures BoardReadOk(s', b)
  {
    assert s'.logs[b.epoch][..b.at] == s.logs[b.epoch][..b.at];
  }

  lemma VersionReadStays(s: Room, s': Room, v: VersionRead)
    requires s.logs != [] && LogsGrow(s, s') && VersionReadOk(s, v)
    ensures VersionReadOk(s', v)
  {
  }

  lemma ReadingsStay(s: Room, s': Room)
    requires Inv(s) && LogsGrow(s, s') && s'.id == s.id
    ensures forall g :: GenOk(s, g) ==> GenOk(s', g)
    ensures forall t :: TakenOk(s, t) ==> TakenOk(s', t)
  {
    forall b | BoardReadOk(s, b)
      ensures BoardReadOk(s', b)
    {
      BoardReadStays(s, s', b);
    }
    forall v | VersionReadOk(s, v)
      ensures VersionReadOk(s', v)
    {
      VersionReadStays(s, s', v);
    }
  }

  lemma ActionGrows(s: Room, ev: ActionEvent)
    requires s.logs != []
    ensures LogsGrow(s, ActionStep(s, ev))
  {
    hide FieldKey;
    var s' := ActionStep(s, ev);
    if ev.RunScript? && s' != s && s'.logs != s.logs {
      var e := Log(s')[|Log(s)|];
      assert s'.logs == s.logs[Epoch(s) := Log(s) + [e]];
    }
  }

  lemma BoardReadNow(s: Room, ok: bool)
    requires s.logs != [] && BoardSafety.BoardOk(s)
    ensures BoardReadOk(s, if ok then BoardRead(Epoch(s), |Log(s)|, s.redis.board) else BoardRead(Epoch(s), 0, map[]))
  {
    hide FieldKey;
    assert Log(s)[..|Log(s)|] == Log(s) && Edits(Log(s)[..0]) == [];
  }

  lemma ReadBoardKeeps(s: Room, g: nat, ok: bool)
    requires Inv(s) && BoardSafety.BoardOk(s)
    ensures Inv(s.(snaps := DoReadBoard(s, g, ok)))
  {
    BoardReadNow(s, ok);
    ReadingsStay(s, s.(snaps := DoReadBoard(s, g, ok)));
  }

  lemma ReadVersionKeeps(s: Room, g: nat, ok: bool)
    requires Inv(s) && BoardSafety.CounterOk(s)
    ensures Inv(s.(snaps := DoReadVersion(s, g, ok)))
  {
    assert VersionReadOk(s, VersionRead(Epoch(s), |Log(s)|, s.redis.version));
    ReadingsStay(s, s.(snaps := DoReadVersion(s, g, ok)));
  }

  lemma StampKeeps(s: Room, g: nat)
    requires Inv(s)
    ensures Inv(s.(snaps := DoStamp(s, g)))
  {
    hide BoardReadOk, VersionReadOk, InOrder;
    ReadingsStay(s, s.(snaps := DoStamp(s, g)));
  }

  lemma SaveKeeps(s: Room, g: nat, w: nat, r: Reply)
    requires Inv(s)
    ensures Inv(s.(snaps := DoSave(s.snaps, g, w, r)))
  {
    hide TakenOk, BoardReadOk, VersionReadOk, InOrder;
    ReadingsStay(s, s.(snaps := DoSave(s.snaps, g, w, r)));
  }

  lemma CacheKeeps(s: Room, s': Room)
    requires Inv(s) && s'.logs == s.logs && s'.id == s.id && s'.redis.version == s.redis.version
    requires s'.snaps.gens == s.snaps.gens && s'.snaps.saved == s.snaps.saved
    ensures Inv(s')
  {
    ReadingsStay(s, s');
  }

  lemma SnapshotKeeps(s: Room, ev: SnapshotEvent)
    requires Inv(s) && BoardSafety.BoardOk(s) && BoardSafety.CounterOk(s)
    ensures Inv(SnapshotStep(s, ev))
  {
    match ev
    case ReadBoard(g, ok) => ReadBoardKeeps(s, g, ok);
    case ReadVersion(g, ok) => ReadVersionKeeps(s, g, ok);
    case Stamp(g) => StampKeeps(s, g);
    case Save(g, w, r) => SaveKeeps(s, g, w, r);
    case WriteCache(w, r) => CacheKeeps(s, DoWriteCache(s, w, r));
    case _ => CacheKeeps(s, SnapshotStep(s, ev));
  }

  lemma StepKeeps(s: Room, ev: Event)
    requires Inv(s) && BoardSafety.Inv(s)
    ensures Inv(Step(s, ev))
  {
    match ev
    case OnAction(a) =>
      ActionGrows(s, a);
      ReadingsStay(s, ActionStep(s, a));
    case OnSnapshot(p) => SnapshotKeeps(s, p);
    case Tick(d) => CacheKeeps(s, Step(s, ev));
    case Cleanup => ReadingsStay(s, CleanupStep(s));
  }

  lemma {:induction false} RunKeeps(start: Room, es: seq<Event>)
    requires Inv(start) && BoardSafety.Inv(start)
    ensures Inv(Run(start, es))
  {
    if es != [] {
      RunKeeps(start, es[..|es| - 1]);
      BoardSafety.RunKeeps(start, es[..|es| - 1]);
      StepKeeps(Run(start, es[..|es| - 1]), es[|es| - 1]);
    }
  }

  lemma Always(s: Room)
    requires Reachable(s)
    ensures Inv(s)
  {
    var id, now, es :| s == Run(Init(id, now), es);
    RunKeeps(Init(id, now), es);
  }

  // ----- what the invariant means -------------------------------------------

  /** Every saved snapshot's board is the epoch's board after some prefix of its
      applied actions. With no cleanup between the two reads its version covers that
      prefix, and it never runs ahead of the live counter. */
  lemma SavedSnapshotMeans(s: Room, t: Taken)
    requires Reachable(s) && t in s.snaps.saved
    ensures t.b.epoch < |s.logs| && t.b.at <= |s.logs[t.b.epoch]|
    ensures t.snap.state == Replay(map[], Edits(s.logs[t.b.epoch][..t.b.at]))
    ensures t.b.epoch == t.v.epoch ==>
              forall i :: 0 <= i < t.b.at ==> s.logs[t.b.epoch][i].action.version <= t.snap.version
    ensures t.v.epoch == Epoch(s) ==> t.snap.version <= s.redis.version
  {
    Always(s);
  }

  /** The applied actions a client asks for: those above the snapshot's version. */
  function Above(log: seq<Entry>, version: nat): seq<Entry> {
    if log == [] then []
    else
      var n := |log| - 1;
      Above(log[..n], version) + (if log[n].action.version > version then [log[n]] else [])
  }

  lemma {:induction false} AboveIsSuffix(log: seq<Entry>, version: nat, at: nat)
    requires at <= |log|
    requires forall i :: 0 <= i < at ==> log[i].action.version <= version
    requires forall i :: at <= i < |log| ==> log[i].action.version > version
    ensures Above(log, version) == log[at..]
  {
    if log != [] {
      var n := |log| - 1;
      if at <= n {
        AboveIsSuffix(log[..n], version, at);
        assert log[at..] == log[..n][at..] + [log[n]];
      } else {
        AboveIsSuffix(log[..n], version, n);
      }
    }
  }

  /** Catching up by overlap always works: replaying everything applied since any
      point at or before the board read gives the live board. */
  lemma CatchUpWithOverlap(s: Room, t: Taken, i: nat)
    requires Reachable(s) && t in s.snaps.saved
    requires t.b.epoch == Epoch(s) && i <= t.b.at
    ensures i <= |Log(s)|
    ensures Replay(t.snap.state, Edits(Log(s)[i..])) == s.redis.board
  {
    hide FieldKey;
    Always(s);
    BoardSafety.Always(s);
    var es := Edits(Log(s));
    assert Edits(Log(s)[..t.b.at]) == es[..t.b.at] && Edits(Log(s)[i..]) == es[i..];
    OverlapAbsorbed(map[], es, i, t.b.at);
  }

  /** From any board, replaying a log's tail gives the whole log's board exactly when
      that board agrees with the skipped part on every cell the tail leaves alone. */
  lemma TailReplay(b: BoardState, log: seq<Entry>, at: nat)
    requires at <= |log|
    ensures Replay(b, Edits(log[at..])) == Replay(map[], Edits(log))
       <==> forall f :: Writes(Edits(log[at..]), f) || Cell(b, f) == Cell(Replay(map[], Edits(log[..at])), f)
  {
    hide FieldKey;
    var es := Edits(log);
    assert Edits(log[at..]) == es[at..] && Edits(log[..at]) == es[..at] && es == es[..at] + es[at..];
    ReplayConcat(map[], es[..at], es[at..]);
    SameAfter(b, Replay(map[], es[..at]), es[at..]);
  }

  /** Catching up by version works exactly when every cell is either written by an
      action above the snapshot's version, or the actions applied between the
      snapshot's two reads left it as the board read saw it. */
  lemma CatchUpByVersion(s: Room, t: Taken)
    requires Reachable(s) && t in s.snaps.saved
    requires t.b.epoch == t.v.epoch == Epoch(s)
    ensures t.b.at <= t.v.at <= |Log(s)|
    ensures var later := Edits(Above(Log(s), t.snap.version));
            var atVersionRead := Replay(map[], Edits(Log(s)[..t.v.at]));
            Replay(t.snap.state, later) == s.redis.board
            <==> forall f :: Writes(later, f) || Cell(t.snap.state, f) == Cell(atVersionRead, f)
  {
    hide FieldKey;
    Always(s);
    BoardSafety.LiveBoard(s);
    AboveIsSuffix(Log(s), t.snap.version, t.v.at);
    TailReplay(t.snap.state, Log(s), t.v.at);
  }

  /** A run in which a generation reads the empty board and a draw follows. */
  lemma DrawAfterBoardRead() returns (s: Room)
    ensures Reachable(s) && s.logs == [Log(s)] && |Log(s)| == 1
    ensures s.redis.version == Log(s)[0].action.version == 2 && s.redis.board != map[]
    ensures s.snaps == Init(7, 0).snaps.(gens := map[0 := HasBoard(BoardRead(0, 0, map[]))])
  {
    hide FieldKey;
    var i := Incoming(1, "draw", DrawData(0, 0, "red"));
    var e0, e1 := OnSnapshot(ReadBoard(0, true)), OnAction(Receive(0, i));
    var e2, e3 := OnAction(Increment(0, Answered)), OnAction(RunScript(0, Answered));
    var s0 := Init(7, 0);
    InitReachable(7, 0);
    var s1 := Step(s0, e0);
    StepReachable(s0, e0);
    var s2 := Step(s1, e1);
    StepReachable(s1, e1);
    var s3 := Step(s2, e2);
    StepReachable(s2, e2);
    s := Step(s3, e3);
    StepReachable(s3, e3);
    assert FieldKey(0, 0) in s.redis.board;
  }

  /** It can fail: a draw applied between the two reads is in the version but not in
      the board, and nothing above the version brings it back. */
  lemma TornSnapshot() returns (s: Room, t: Taken)
    ensures Reachable(s) && t in s.snaps.saved && t.b.epoch == t.v.epoch == Epoch(s)
    ensures Replay(t.snap.state, Edits(Above(Log(s), t.snap.version))) != s.redis.board
  {
    var s0 := DrawAfterBoardRead();
    var e0, e1, e2 := ReadVersion(0, true), Stamp(0), Save(0, 0, Answered);
    var s1 := Step(s0, OnSnapshot(e0));
    StepReachable(s0, OnSnapshot(e0));
    var s2 := Step(s1, OnSnapshot(e1));
    StepReachable(s1, OnSnapshot(e1));
    s := Step(s2, OnSnapshot(e2));
    StepReachable(s2, OnSnapshot(e2));
    t := s.snaps.saved[0];
    assert t.snap.state == map[] && t.snap.version == 2;
    assert Log(s)[..0] == [];
    assert Above(Log(s), 2) == [];
  }
}
