/** Exactly when the saved rows of an epoch give its board, and exactly when they are
    all of its actions. */
module PersistenceExact {
  import opened Wrappers
  import opened Domain
  import opened RoomMachine
  import opened Board
  import BoardSafety
  import opened Persistence

  function FieldOf(e: Entry): string {
    EditOf(e.action).field
  }

  /** No entry of the set on the same cell has a higher version. */
  ghost predicate Top(s: set<Entry>, e: Entry) {
    e in s && forall o :: o in s && FieldOf(o) == FieldOf(e) ==> o.action.version <= e.action.version
  }

  /** This set of rows shows on `e`'s cell what `e` does to it: its newest row there has
      the same effect, or it has no row there and `e` erases. */
  ghost predicate Shown(rows: set<Entry>, e: Entry) {
    || (exists w :: Top(rows, w) && FieldOf(w) == FieldOf(e) && Effect(EditOf(w.action)) == Effect(EditOf(e.action)))
    || (Effect(EditOf(e.action)) == None && forall o :: o in rows ==> FieldOf(o) != FieldOf(e))
  }

  lemma TopWins(es: seq<Entry>, e: Entry)
    requires Top(SetOf(es), e)
    ensures Wins(SetOf(Edits(es)), EditOf(e.action))
  {
    hide FieldKey;
    var edits := Edits(es);
    var i :| 0 <= i < |es| && es[i] == e;
    assert edits[i] in SetOf(edits);
    forall x | x in SetOf(edits) && x.field == FieldOf(e) ensures x.version <= e.action.version {
      var j :| 0 <= j < |es| && edits[j] == x;
      assert es[j] in SetOf(es);
    }
  }

  lemma SomeTop(es: seq<Entry>, f: string) returns (w: Entry)
    requires exists o :: o in es && FieldOf(o) == f
    ensures Top(SetOf(es), w) && FieldOf(w) == f
  {
    hide FieldKey;
    var edits := Edits(es);
    var o :| o in es && FieldOf(o) == f;
    var i :| 0 <= i < |es| && es[i] == o;
    assert edits[i] in SetOf(edits);
    var x := SomeWinner(SetOf(edits), f);
    var j :| 0 <= j < |es| && edits[j] == x;
    w := es[j];
    forall p | p in SetOf(es) && FieldOf(p) == f ensures p.action.version <= w.action.version {
      var k :| 0 <= k < |es| && es[k] == p;
      assert edits[k] in SetOf(edits);
    }
  }

  /** What a version-sorted replay shows on one cell. */
  lemma CellShows(es: seq<Entry>, b: BoardState)
    requires IsLww(b, SetOf(Edits(es)))
    ensures forall e :: Top(SetOf(es), e) ==> Cell(b, FieldOf(e)) == Effect(EditOf(e.action))
    ensures forall f :: (forall o :: o in es ==> FieldOf(o) != f) ==> Cell(b, f) == None
  {
    hide FieldKey;
    forall e | Top(SetOf(es), e) ensures Cell(b, FieldOf(e)) == Effect(EditOf(e.action)) {
      TopWins(es, e);
    }
    forall f | forall o :: o in es ==> FieldOf(o) != f ensures Cell(b, f) == None {
      assert !Touched(SetOf(Edits(es)), f);
    }
  }

  /** On the cell of a log's top entry, the rows' board agrees with the log's exactly if
      the rows show that entry. */
  lemma CellAgrees(got: seq<Entry>, b: BoardState, e: Entry)
    requires IsLww(b, SetOf(Edits(got)))
    ensures Cell(b, FieldOf(e)) == Effect(EditOf(e.action)) <==> Shown(SetOf(got), e)
  {
    hide FieldKey, FieldOf;
    CellShows(got, b);
    if exists o :: o in got && FieldOf(o) == FieldOf(e) {
      var w := SomeTop(got, FieldOf(e));
    }
  }

  lemma TwoReplays(got: seq<Entry>, log: seq<Entry>)
    requires ByVersion(Edits(got)) && VersionsIdentify(SetOf(Edits(got)))
    requires ByVersion(Edits(log)) && VersionsIdentify(SetOf(Edits(log)))
    requires SetOf(got) <= SetOf(log)
    ensures Replay(map[], Edits(got)) == Replay(map[], Edits(log))
       <==> forall e :: Top(SetOf(log), e) ==> Shown(SetOf(got), e)
  {
    hide FieldKey, FieldOf, Shown, Edits;
    var b, c := Replay(map[], Edits(got)), Replay(map[], Edits(log));
    SortedReplayIsLww(Edits(got));
    SortedReplayIsLww(Edits(log));
    CellShows(got, b);
    CellShows(log, c);
    forall e ensures Cell(b, FieldOf(e)) == Effect(EditOf(e.action)) <==> Shown(SetOf(got), e) {
      CellAgrees(got, b, e);
    }
    if forall e :: Top(SetOf(log), e) ==> Shown(SetOf(got), e) {
      forall f ensures Cell(b, f) == Cell(c, f) {
        if exists o :: o in log && FieldOf(o) == f {
          var w := SomeTop(log, f);
        } else {
          assert forall o :: o in got ==> o in SetOf(log);
        }
      }
      SameCells(b, c);
    }
  }

  /** An epoch's rows, read back by version with whatever duplicates, give the epoch's
      board if and only if on each cell the newest row has the effect of the cell's final
      action, or there is no row and the final action erased. */
  lemma RowsRestoreBoardExactly(s: Room, k: nat, got: seq<Entry>)
    requires Reachable(s) && k < |s.logs|
    requires SetOf(got) == RowsOf(s, k) && ByVersion(Edits(got))
    ensures Replay(map[], Edits(got)) == Replay(map[], Edits(s.logs[k]))
       <==> forall e :: Final(s, k, e) ==> Shown(RowsOf(s, k), e)
  {
    hide FieldKey, Shown, Edits;
    Always(s);
    BoardSafety.Always(s);
    var log := s.logs[k];
    assert BoardSafety.LogOk(log, k, s.id);
    BoardSafety.OrderedIdentifies(log);
    assert SetOf(got) <= SetOf(log);
    BoardSafety.EditsWithin(got, log);
    TwoReplays(got, log);
    assert forall e :: Final(s, k, e) <==> Top(SetOf(log), e);
  }

  // ----- no action is in two places ------------------------------------------------

  predicate CarriedBy(a: Acts, t: nat, e: Entry) {
    t in a.threads && Carries(a.threads[t]) && a.threads[t].e == e
  }

  /** An action is carried by one goroutine at most, and then nowhere else yet; it has one
      task at most; and what is lost is neither queued nor saved. */
  ghost predicate Exclusive(a: Acts) {
    && (forall t, u, e :: CarriedBy(a, t, e) && CarriedBy(a, u, e) ==> t == u)
    && (forall t, e :: CarriedBy(a, t, e) ==> !Queued(a, e) && e !in a.rows && e !in a.lost)
    && (forall i, j :: 0 <= i < j < |a.queue| ==> a.queue[i].e != a.queue[j].e)
    && (forall i :: 0 <= i < |a.queue| ==> a.queue[i].e !in a.lost)
    && (forall e :: e in a.rows ==> e !in a.lost)
  }

  /** Steps that move no action anywhere. */
  lemma SamePlaces(a: Acts, a': Acts)
    requires Exclusive(a) && a'.queue == a.queue && a'.rows == a.rows && a'.lost == a.lost
    requires forall t, e :: CarriedBy(a', t, e) ==> CarriedBy(a, t, e)
    ensures Exclusive(a')
  {
    assert forall e :: Queued(a', e) <==> Queued(a, e);
  }

  ghost predicate Distinct(queue: seq<Task>) {
    forall i, j :: 0 <= i < j < |queue| ==> queue[i].e != queue[j].e
  }

  /** A delivery leaves distinct tasks, none of them new, and takes `i` out or keeps it. */
  lemma WorkTasks(a: Acts, i: nat, inserted: bool, acknowledged: bool)
    requires i < |a.queue| && Distinct(a.queue)
    ensures var a' := DoWork(a, i, inserted, acknowledged);
      && Distinct(a'.queue) && (forall e :: Queued(a', e) ==> Queued(a, e))
      && (|a'.queue| < |a.queue| ==> !Queued(a', a.queue[i].e))
  {
    var a' := DoWork(a, i, inserted, acknowledged);
    assert forall j :: 0 <= j < |a'.queue| ==>
      a'.queue[j].e == a.queue[if j < i || |a'.queue| == |a.queue| then j else j + 1].e;
  }

  lemma WorkExclusive(a: Acts, i: nat, inserted: bool, acknowledged: bool)
    requires Exclusive(a)
    ensures Exclusive(DoWork(a, i, inserted, acknowledged))
  {
    var a' := DoWork(a, i, inserted, acknowledged);
    if i < |a.queue| && (acknowledged ==> inserted) {
      var e := a.queue[i].e;
      assert Queued(a, e);
      WorkTasks(a, i, inserted, acknowledged);
      assert a'.threads == a.threads && forall o :: o in a'.rows ==> o in a.rows || o == e;
      assert a'.lost == a.lost || (a'.lost == a.lost + {e} && e !in a'.rows && |a'.queue| < |a.queue|);
      WorkedExclusive(a, a', e);
    }
  }

  lemma WorkedExclusive(a: Acts, a': Acts, e: Entry)
    requires Exclusive(a) && Queued(a, e) && a'.threads == a.threads
    requires Distinct(a'.queue) && forall o :: Queued(a', o) ==> Queued(a, o)
    requires forall o :: o in a'.rows ==> o in a.rows || o == e
    requires a'.lost == a.lost || (a'.lost == a.lost + {e} && e !in a'.rows && !Queued(a', e))
    ensures Exclusive(a')
  {
    assert forall t, o :: CarriedBy(a', t, o) <==> CarriedBy(a, t, o);
    forall j | 0 <= j < |a'.queue| ensures a'.queue[j].e !in a'.lost {
      assert Queued(a', a'.queue[j].e);
    }
  }

  lemma EnqueueExclusive(s: Room, t: nat, ok: bool)
    requires Exclusive(s.acts)
    ensures Exclusive(DoEnqueue(s, t, ok).acts)
  {
    var a, a' := s.acts, DoEnqueue(s, t, ok).acts;
    if t in a.threads && a.threads[t].Published? {
      var e := a.threads[t].e;
      assert CarriedBy(a, t, e);
      assert forall u, o :: CarriedBy(a', u, o) ==> u != t && CarriedBy(a, u, o);
      forall o | Queued(a', o) ensures Queued(a, o) || (ok && o == e) {
        var j :| 0 <= j < |a'.queue| && a'.queue[j].e == o;
        assert j < |a.queue| ==> a.queue[j].e == o;
      }
      assert forall j :: 0 <= j < |a.queue| ==> Queued(a, a.queue[j].e);
    }
  }

  /** A newly applied action is in no log yet, hence nowhere. */
  lemma ScriptExclusive(s: Room, t: nat, r: Reply)
    requires Inv(s) && BoardSafety.Inv(s) && Exclusive(s.acts)
    ensures Exclusive(DoApply(s, t, r).acts)
  {
    hide FieldKey, BoardSafety.BoardOk;
    var a, a' := s.acts, DoApply(s, t, r).acts;
    if t in a.threads && a.threads[t].Bumped? {
      if r.Executed() {
        var e := Log(DoApply(s, t, r))[|Log(s)|];
        assert !Logged(s, e);
        assert forall u :: !CarriedBy(a, u, e);
        assert !Queued(a, e) && e !in a.rows && e !in a.lost;
        assert forall u, o :: CarriedBy(a', u, o) ==> CarriedBy(a, u, o) || (u == t && o == e && r.Answered?);
        assert forall o :: Queued(a', o) <==> Queued(a, o);
      } else {
        SamePlaces(a, a');
      }
    }
  }

  lemma PipelineExclusive(s: Room, ev: ActionEvent)
    requires s.logs != [] && Exclusive(s.acts) && !ev.RunScript? && !ev.Work? && !ev.Enqueue?
    ensures Exclusive(ActionStep(s, ev).acts)
  {
    SamePlaces(s.acts, ActionStep(s, ev).acts);
  }

  lemma StepExclusive(s: Room, ev: Event)
    requires Inv(s) && BoardSafety.Inv(s) && Exclusive(s.acts)
    ensures Exclusive(Step(s, ev).acts)
  {
    hide Inv, BoardSafety.Inv, Exclusive;
    assert s.logs != [] by { Starts(s); }
    match ev
    case OnAction(RunScript(t, r)) => ScriptExclusive(s, t, r);
    case OnAction(Work(i, x, k)) => WorkExclusive(s.acts, i, x, k);
    case OnAction(Enqueue(t, ok)) => EnqueueExclusive(s, t, ok);
    case OnAction(a) => PipelineExclusive(s, a);
    case _ => SamePlaces(s.acts, Step(s, ev).acts);
  }

  lemma Starts(s: Room)
    requires Inv(s)
    ensures s.logs != []
  {
  }

  lemma {:induction false} RunExclusive(start: Room, es: seq<Event>)
    requires Inv(start) && BoardSafety.Inv(start) && Exclusive(start.acts)
    ensures Exclusive(Run(start, es).acts)
  {
    if es != [] {
      var before := es[..|es| - 1];
      RunExclusive(start, before);
      Persistence.RunKeeps(start, before);
      BoardSafety.RunKeeps(start, before);
      StepExclusive(Run(start, before), es[|es| - 1]);
    }
  }

  lemma AlwaysExclusive(s: Room)
    requires Reachable(s)
    ensures Exclusive(s.acts)
  {
    var id, now, es :| s == Run(Init(id, now), es);
    InitReachable(id, now);
    Always(Init(id, now));
    BoardSafety.Always(Init(id, now));
    RunExclusive(Init(id, now), es);
  }

  /** Nothing of epoch `k` is on its way to the table any more. */
  ghost predicate AtRest(s: Room, k: nat) {
    && (forall t :: t in s.acts.threads && Carries(s.acts.threads[t]) ==> s.acts.threads[t].e.epoch != k)
    && (forall i :: 0 <= i < |s.acts.queue| ==> s.acts.queue[i].e.epoch != k)
  }

  /** Then the epoch's rows are all its applied actions if and only if none of them was
      lost, and the missing ones are exactly the lost. */
  lemma RowsCompleteExactly(s: Room, k: nat)
    requires Reachable(s) && k < |s.logs| && AtRest(s, k)
    ensures RowsOf(s, k) == SetOf(s.logs[k]) <==> forall e :: e in s.acts.lost ==> e.epoch != k
    ensures SetOf(s.logs[k]) - RowsOf(s, k) == set e | e in s.acts.lost && e.epoch == k
  {
    hide FieldKey;
    Always(s);
    BoardSafety.Always(s);
    AlwaysExclusive(s);
    assert BoardSafety.LogOk(s.logs[k], k, s.id);
    var lost := set e | e in s.acts.lost && e.epoch == k;
    var rows, log := RowsOf(s, k), SetOf(s.logs[k]);
    forall e ensures e in log - rows <==> e in lost {
      if e in s.logs[k] {
        assert Logged(s, e);
      }
    }
    forall e | e in rows ensures e in log {
    }
    assert log - rows == lost;
    if rows == log {
      forall e | e in s.acts.lost ensures e.epoch != k {
        assert e in lost <==> e in log - rows;
      }
    } else {
      var e :| e in log && e !in rows;
      assert e in lost;
    }
  }
}
