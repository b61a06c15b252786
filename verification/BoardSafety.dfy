/** In every run, the live board is the replay of the epoch's applied actions,
    and therefore the last-version-wins board of that set of actions. */
module BoardSafety {
  import opened Wrappers
  import opened Decimal
  import opened Domain
  import opened RoomMachine
  import opened Board

  ghost predicate Ordered(log: seq<Entry>) {
    forall i, j :: 0 <= i < j < |log| ==> log[i].action.version < log[j].action.version
  }

  ghost predicate LogOk(log: seq<Entry>, epoch: nat, id: nat) {
    && Ordered(log)
    && forall i :: 0 <= i < |log| ==>
         log[i].epoch == epoch && log[i].action.roomID == id && ValidType(EditOf(log[i].action))
  }

  ghost predicate LogsOk(s: Room) {
    forall k :: 0 <= k < |s.logs| ==> LogOk(s.logs[k], k, s.id)
  }

  /** The counter counts the plain increments and the applied actions of the epoch. */
  ghost predicate CounterOk(s: Room)
    requires s.logs != []
  {
    && s.redis.version == s.bumps + |Log(s)|
    && (forall i :: 0 <= i < |Log(s)| ==> Log(s)[i].action.version <= s.redis.version)
  }

  ghost predicate BoardOk(s: Room)
    requires s.logs != []
  {
    s.redis.board == Replay(map[], Edits(Log(s)))
  }

  ghost predicate InputsOk(s: Room) {
    forall t :: t in s.acts.threads && (s.acts.threads[t].Received? || s.acts.threads[t].Bumped?) ==> s.acts.threads[t].input.Valid()
  }

  ghost predicate Inv(s: Room) {
    s.logs != [] && LogsOk(s) && CounterOk(s) && BoardOk(s) && InputsOk(s)
  }

  lemma EntryReplays(log: seq<Entry>, e: Entry)
    ensures Replay(map[], Edits(log + [e])) == Apply(Replay(map[], Edits(log)), EditOf(e.action))
  {
    hide FieldKey;
    assert Edits(log + [e]) == Edits(log) + [EditOf(e.action)];
    ReplayAppend(map[], Edits(log), EditOf(e.action));
  }

  lemma ScriptKeepsBoard(s: Room, t: nat, r: Reply)
    requires s.logs != [] && BoardOk(s)
    ensures BoardOk(DoApply(s, t, r))
  {
    hide FieldKey;
    if t in s.acts.threads && s.acts.threads[t].Bumped? && r.Executed() {
      var e := Entry(Epoch(s), MakeAction(s.id, s.acts.threads[t].input, s.redis.version + 1));
      assert Log(DoApply(s, t, r)) == Log(s) + [e];
      EntryReplays(Log(s), e);
    }
  }

  lemma ScriptKeepsLogs(s: Room, t: nat, r: Reply)
    requires s.logs != [] && LogsOk(s) && CounterOk(s) && InputsOk(s)
    ensures LogsOk(DoApply(s, t, r))
  {
  }

  lemma ScriptKeepsCounter(s: Room, t: nat, r: Reply)
    requires s.logs != [] && CounterOk(s)
    ensures CounterOk(DoApply(s, t, r))
  {
  }

  lemma ActionKeepsInputs(s: Room, ev: ActionEvent)
    requires s.logs != [] && InputsOk(s)
    ensures InputsOk(ActionStep(s, ev))
  {
  }

  lemma OtherStepsKeep(s: Room, s': Room)
    requires s.logs != [] && LogsOk(s) && CounterOk(s) && BoardOk(s)
    requires s'.logs == s.logs && s'.id == s.id && s'.redis.board == s.redis.board
    requires s'.redis.version - s.redis.version == s'.bumps - s.bumps >= 0
    ensures LogsOk(s') && CounterOk(s') && BoardOk(s')
  {
    hide FieldKey;
  }

  lemma ActionKeeps(s: Room, ev: ActionEvent)
    requires Inv(s)
    ensures Inv(ActionStep(s, ev))
  {
    ActionKeepsInputs(s, ev);
    if ev.RunScript? {
      ScriptKeepsCounter(s, ev.t, ev.reply);
      ScriptKeepsBoard(s, ev.t, ev.reply);
      ScriptKeepsLogs(s, ev.t, ev.reply);
    } else {
      OtherStepsKeep(s, ActionStep(s, ev));
    }
  }

  lemma CleanupKeeps(s: Room)
    requires Inv(s)
    ensures Inv(CleanupStep(s))
  {
  }

  lemma StepKeeps(s: Room, ev: Event)
    requires Inv(s)
    ensures Inv(Step(s, ev))
  {
    match ev
    case OnAction(a) => ActionKeeps(s, a);
    case OnSnapshot(p) => OtherStepsKeep(s, SnapshotStep(s, p));
    case Tick(d) => OtherStepsKeep(s, Step(s, ev));
    case Cleanup => CleanupKeeps(s);
  }

  lemma {:induction false} RunKeeps(start: Room, es: seq<Event>)
    requires Inv(start)
    ensures Inv(Run(start, es))
  {
    if es != [] {
      RunKeeps(start, es[..|es| - 1]);
      StepKeeps(Run(start, es[..|es| - 1]), es[|es| - 1]);
    }
  }

  lemma Always(s: Room)
    requires Reachable(s)
    ensures Inv(s)
  {
    var id, now, es :| s == Run(Init(id, now), es);
    RunKeeps(Init(id, now), es);
  }

  // ----- what the invariant means -------------------------------------------

  lemma OrderedIdentifies(log: seq<Entry>)
    requires Ordered(log)
    ensures ByVersion(Edits(log)) && VersionsIdentify(SetOf(Edits(log)))
  {
    hide FieldKey;
    var es := Edits(log);
    forall a, b | a in SetOf(es) && b in SetOf(es) && a.version == b.version
      ensures a == b
    {
      var i :| 0 <= i < |es| && es[i] == a;
      var j :| 0 <= j < |es| && es[j] == b;
    }
  }

  /** The versions the script answered in this epoch are strictly increasing in
      application order, the counter counts every INCR since the cleanup, and the
      board is the last-version-wins board of the applied actions. */
  lemma LiveBoard(s: Room)
    requires Reachable(s)
    ensures Ordered(Log(s)) && s.redis.version == s.bumps + |Log(s)|
    ensures s.redis.board == Replay(map[], Edits(Log(s)))
    ensures IsLww(s.redis.board, SetOf(Edits(Log(s))))
  {
    Always(s);
    assert LogOk(s.logs[Epoch(s)], Epoch(s), s.id);
    OrderedIdentifies(Log(s));
    SortedReplayIsLww(Edits(Log(s)));
  }

  /** Whoever collects the epoch's actions, in any order and with repeats, and
      replays them by version ends with the live board. */
  lemma CollectedByVersion(s: Room, got: seq<Entry>)
    requires Reachable(s)
    requires SetOf(got) == SetOf(Log(s)) && ByVersion(Edits(got))
    ensures Replay(map[], Edits(got)) == s.redis.board
  {
    LiveBoard(s);
    OrderedIdentifies(Log(s));
    SameEdits(got, Log(s));
    SortedListingsAgree(Edits(got), Edits(Log(s)));
  }

  lemma SameEdits(a: seq<Entry>, b: seq<Entry>)
    requires SetOf(a) == SetOf(b)
    ensures SetOf(Edits(a)) == SetOf(Edits(b))
  {
    EditsWithin(a, b);
    EditsWithin(b, a);
  }

  lemma EditsWithin(a: seq<Entry>, b: seq<Entry>)
    requires SetOf(a) <= SetOf(b)
    ensures SetOf(Edits(a)) <= SetOf(Edits(b))
  {
    forall x | x in SetOf(Edits(a))
      ensures x in SetOf(Edits(b))
    {
      var i :| 0 <= i < |a| && Edits(a)[i] == x;
      assert a[i] in SetOf(a);
      var j :| 0 <= j < |b| && b[j] == a[i];
      assert Edits(b)[j] == x;
    }
  }

  predicate OnCell(e: Entry, x: Int64, y: Int64) {
    e.action.data.x == x && e.action.data.y == y
  }

  ghost predicate LatestAt(log: seq<Entry>, x: Int64, y: Int64, e: Entry) {
    e in log && OnCell(e, x, y) && forall o :: o in log && OnCell(o, x, y) ==> o.action.version <= e.action.version
  }

  /** In the caller's terms: cell (x, y) shows the colour of the highest-versioned
      action at (x, y), or nothing if that action erased or none ever came. */
  lemma CellShowsLatest(s: Room, x: Int64, y: Int64)
    requires Reachable(s)
    ensures (forall e :: e in Log(s) ==> !OnCell(e, x, y)) ==> FieldKey(x, y) !in s.redis.board
    ensures forall e :: LatestAt(Log(s), x, y, e) ==>
              Cell(s.redis.board, FieldKey(x, y)) == Effect(EditOf(e.action))
  {
    hide FieldKey;
    var log, es := Log(s), Edits(Log(s));
    LiveBoard(s);
    forall i | 0 <= i < |es| && es[i].field == FieldKey(x, y)
      ensures OnCell(log[i], x, y)
    {
      FieldKeyInjective(log[i].action.data.x, log[i].action.data.y, x, y);
    }
    forall e | LatestAt(log, x, y, e)
      ensures Cell(s.redis.board, FieldKey(x, y)) == Effect(EditOf(e.action))
    {
      var i :| 0 <= i < |log| && log[i] == e;
      assert es[i] in SetOf(es);
      assert Wins(SetOf(es), es[i]);
    }
  }

  /** The hash has an entry for cell (x, y), and it is this colour. */
  ghost predicate Shows(b: BoardState, x: Int64, y: Int64, color: string) {
    exists f :: f in b && Names(f, x, y) && b[f] == color
  }

  /** Every field of the hash stands for the cell of an applied action. */
  lemma FieldNamesSomeCell(s: Room, f: string) returns (i: nat)
    requires Reachable(s) && f in s.redis.board
    ensures i < |Log(s)|
    ensures var d := Log(s)[i].action.data; f == FieldKey(d.x, d.y) && Names(f, d.x, d.y)
  {
    hide FieldKey;
    var es := Edits(Log(s));
    LiveBoard(s);
    ReplayCell(map[], map[], es, f);
    assert Cell(s.redis.board, f).Some? && Cell(map[], f).None?;
    i :| 0 <= i < |es| && es[i].field == f;
    FieldNamesCell(Log(s)[i].action.data.x, Log(s)[i].action.data.y, Log(s)[i].action.data.x, Log(s)[i].action.data.y);
  }

  /** No two fields of the hash stand for one cell. */
  lemma OneFieldPerCell(s: Room, f: string, g: string, x: Int64, y: Int64)
    requires Reachable(s) && f in s.redis.board && g in s.redis.board && Names(f, x, y) && Names(g, x, y)
    ensures f == g
  {
    var i := FieldNamesSomeCell(s, f);
    var j := FieldNamesSomeCell(s, g);
    NamesOneCell(f, x, y, Log(s)[i].action.data.x, Log(s)[i].action.data.y);
    NamesOneCell(g, x, y, Log(s)[j].action.data.x, Log(s)[j].action.data.y);
  }

  lemma {:induction false} SomeLatest(log: seq<Entry>, x: Int64, y: Int64) returns (e: Entry)
    requires Ordered(log) && exists o :: o in log && OnCell(o, x, y)
    ensures LatestAt(log, x, y, e)
  {
    var n := |log| - 1;
    if OnCell(log[n], x, y) {
      e := log[n];
    } else {
      assert forall o :: o in log <==> o in log[..n] || o == log[n];
      e := SomeLatest(log[..n], x, y);
    }
  }

  lemma ShownIsLatest(s: Room, x: Int64, y: Int64, f: string)
    requires Reachable(s) && f in s.redis.board && Names(f, x, y)
    ensures s.redis.board[f] != "" && exists e :: LatestAt(Log(s), x, y, e) && e.action.data.color == s.redis.board[f]
  {
    hide FieldKey, Names;
    LiveBoard(s);
    CellShowsLatest(s, x, y);
    var i := FieldNamesSomeCell(s, f);
    NamesOneCell(f, x, y, Log(s)[i].action.data.x, Log(s)[i].action.data.y);
    assert Log(s)[i] in Log(s) && OnCell(Log(s)[i], x, y);
    var e := SomeLatest(Log(s), x, y);
    assert Cell(s.redis.board, f) == Effect(EditOf(e.action));
  }

  lemma LatestIsShown(s: Room, x: Int64, y: Int64, e: Entry)
    requires Reachable(s) && LatestAt(Log(s), x, y, e) && e.action.data.color != ""
    ensures Shows(s.redis.board, x, y, e.action.data.color)
  {
    hide FieldKey, Names, LatestAt;
    CellShowsLatest(s, x, y);
    FieldNamesCell(x, y, x, y);
    assert Cell(s.redis.board, FieldKey(x, y)) == Effect(EditOf(e.action));
  }

  /** Read field by field, each split at its ':', the hash shows a colour at (x, y) if and
      only if it is the colour of the highest-versioned action at (x, y) and not empty. */
  lemma BoardShowsCells(s: Room, x: Int64, y: Int64, color: string)
    requires Reachable(s)
    ensures Shows(s.redis.board, x, y, color) <==>
      color != "" && exists e :: LatestAt(Log(s), x, y, e) && e.action.data.color == color
  {
    hide LatestAt, Names;
    if f :| f in s.redis.board && Names(f, x, y) && s.redis.board[f] == color {
      ShownIsLatest(s, x, y, f);
    }
    if e :| color != "" && LatestAt(Log(s), x, y, e) && e.action.data.color == color {
      LatestIsShown(s, x, y, e);
    }
  }

  /** Replaying the recorded actions through ApplyActionToState gives the live board
      exactly when each cell's last action has the type its colour implies. */
  lemma RecordedTypes(s: Room)
    requires Reachable(s)
    ensures ReplayByType(map[], Edits(Log(s))) == s.redis.board <==> forall f :: LastMatches(Edits(Log(s)), f)
  {
    Always(s);
    var es := Edits(Log(s));
    assert LogOk(s.logs[Epoch(s)], Epoch(s), s.id);
    forall e | e in es
      ensures ValidType(e)
    {
      var i :| 0 <= i < |es| && es[i] == e;
    }
    ByTypeAgreesIff(es);
  }

  /** They may differ: a client that sends an erase with a colour draws on the live board,
      while the recorded action says erase. */
  lemma TypesDisagree() returns (s: Room)
    ensures Reachable(s) && |Log(s)| == 1
    ensures ReplayByType(map[], Edits(Log(s))) == map[] && s.redis.board != map[]
  {
    hide FieldKey;
    var e0 := OnAction(Receive(0, Incoming(1, "erase", DrawData(0, 0, "red"))));
    var e1, e2 := OnAction(Increment(0, Answered)), OnAction(RunScript(0, Answered));
    InitReachable(7, 0);
    var s0 := Step(Init(7, 0), e0);
    StepReachable(Init(7, 0), e0);
    var s1 := Step(s0, e1);
    StepReachable(s0, e1);
    s := Step(s1, e2);
    StepReachable(s1, e2);
    assert FieldKey(0, 0) in s.redis.board;
    var es := Edits(Log(s));
    assert es[..0] == [];
  }
}
