/** The asynchronous, at-least-once persistence of applied actions. */
module Persistence {
  import opened Wrappers
  import opened Domain
  import opened RoomMachine
  import opened Board
  import BoardSafety

  predicate Carries(p: Stage) {
    p.Applied? || p.Pushed? || p.Recorded? || p.Published?
  }

  ghost predicate InFlight(a: Acts, e: Entry) {
    exists t :: t in a.threads && Carries(a.threads[t]) && a.threads[t].e == e
  }

  ghost predicate Queued(a: Acts, e: Entry) {
    exists i :: 0 <= i < |a.queue| && a.queue[i].e == e
  }

  /** Waiting in the queue, saved at least once, or lost: to a dropped script
      answer, to a failed enqueue, or to exhausted retries. */
  ghost predicate Settled(a: Acts, e: Entry) {
    Queued(a, e) || e in a.rows || e in a.lost
  }

  ghost predicate Logged(s: Room, e: Entry) {
    e.epoch < |s.logs| && e in s.logs[e.epoch]
  }

  /** Nothing is carried, queued, saved, published or lost that was not applied. */
  ghost predicate NothingInvented(s: Room) {
    && (forall t :: t in s.acts.threads && (Carries(s.acts.threads[t]) || s.acts.threads[t].Completed?)
          ==> Logged(s, s.acts.threads[t].e))
    && (forall i :: 0 <= i < |s.acts.queue| ==> Logged(s, s.acts.queue[i].e))
    && (forall e :: e in s.acts.rows ==> Logged(s, e))
    && (forall e :: e in s.acts.published ==> Logged(s, e))
    && (forall e :: e in s.acts.lost ==> Logged(s, e))
  }

  ghost predicate NothingForgotten(s: Room) {
    && (forall e :: Logged(s, e) ==> InFlight(s.acts, e) || Settled(s.acts, e))
    && (forall t :: t in s.acts.threads && s.acts.threads[t].Completed? ==> Settled(s.acts, s.acts.threads[t].e))
  }

  ghost predicate Inv(s: Room) {
    s.logs != [] && NothingInvented(s) && NothingForgotten(s)
  }

  /** Once settled, an action stays settled: a task leaves the queue only for the
      table or for the lost. */
  lemma SettledStays(a: Acts, i: nat, inserted: bool, acknowledged: bool, e: Entry)
    requires Settled(a, e)
    ensures Settled(DoWork(a, i, inserted, acknowledged), e)
  {
    if i < |a.queue| && (acknowledged ==> inserted) && Queued(a, e) {
      var j :| 0 <= j < |a.queue| && a.queue[j].e == e;
      if j != i {
        OtherTaskStays(a, i, inserted, acknowledged, j);
      } else {
        DeliveredSettles(a, i, inserted, acknowledged);
      }
    }
  }

  lemma OtherTaskStays(a: Acts, i: nat, inserted: bool, acknowledged: bool, j: nat)
    requires i < |a.queue| && j < |a.queue| && j != i
    ensures Queued(DoWork(a, i, inserted, acknowledged), a.queue[j].e)
  {
    var a' := DoWork(a, i, inserted, acknowledged);
    assert a'.queue[if j < i || |a'.queue| == |a.queue| then j else j - 1].e == a.queue[j].e;
  }

  lemma DeliveredSettles(a: Acts, i: nat, inserted: bool, acknowledged: bool)
    requires i < |a.queue| && (acknowledged ==> inserted)
    ensures Settled(DoWork(a, i, inserted, acknowledged), a.queue[i].e)
  {
    var a', e := DoWork(a, i, inserted, acknowledged), a.queue[i].e;
    if inserted {
      assert a'.rows[|a.rows|] == e;
    } else if a.queue[i].retries < MAX_RETRY {
      assert a'.queue[i].e == e;
    }
  }

  /** One goroutine moves on: it keeps what it carries or settles it, and whatever
      is newly applied is carried by it or settled. */
  lemma MoveKeeps(s: Room, s': Room, t: nat, p: Stage)
    requires Inv(s) && s'.logs != []
    requires s'.acts.threads == s.acts.threads[t := p]
    requires forall e :: Logged(s, e) ==> Logged(s', e)
    requires forall e :: Logged(s', e) ==> Logged(s, e) || (Carries(p) && p.e == e) || Settled(s'.acts, e)
    requires s.acts.queue <= s'.acts.queue && s.acts.rows == s'.acts.rows && s.acts.lost <= s'.acts.lost
    requires forall i :: |s.acts.queue| <= i < |s'.acts.queue| ==> Logged(s', s'.acts.queue[i].e)
    requires forall e :: e in s'.acts.published ==> e in s.acts.published || Logged(s', e)
    requires forall e :: e in s'.acts.lost ==> e in s.acts.lost || Logged(s', e)
    requires Carries(p) || p.Completed? ==> Logged(s', p.e)
    requires p.Completed? ==> Settled(s'.acts, p.e)
    requires t in s.acts.threads && Carries(s.acts.threads[t]) ==>
               (Carries(p) && p.e == s.acts.threads[t].e) || Settled(s'.acts, s.acts.threads[t].e)
    ensures Inv(s')
  {
    var a, a' := s.acts, s'.acts;
    assert a'.threads[t] == p;
    forall e | Settled(a, e)
      ensures Settled(a', e)
    {
      if Queued(a, e) {
        var i :| 0 <= i < |a.queue| && a.queue[i].e == e;
        assert a'.queue[i] == a.queue[i];
      }
    }
    forall e | InFlight(a, e)
      ensures InFlight(a', e) || Settled(a', e)
    {
      var u :| u in a.threads && Carries(a.threads[u]) && a.threads[u].e == e;
      assert u != t ==> a'.threads[u] == a.threads[u];
    }
  }

  lemma WorkKeeps(s: Room, i: nat, inserted: bool, acknowledged: bool)
    requires Inv(s)
    ensures Inv(s.(acts := DoWork(s.acts, i, inserted, acknowledged)))
  {
    var a := s.acts;
    var s' := s.(acts := DoWork(a, i, inserted, acknowledged));
    forall e
      ensures Logged(s', e) <==> Logged(s, e)
      ensures InFlight(s'.acts, e) <==> InFlight(a, e)
      ensures Settled(a, e) ==> Settled(s'.acts, e)
    {
      if Settled(a, e) {
        SettledStays(a, i, inserted, acknowledged, e);
      }
    }
  }

  lemma ScriptKeeps(s: Room, t: nat, r: Reply)
    requires Inv(s)
    ensures Inv(DoApply(s, t, r))
  {
    hide FieldKey;
    var s' := DoApply(s, t, r);
    if t in s.acts.threads && s.acts.threads[t].Bumped? {
      if r.Executed() {
        var e := Log(s')[|Log(s)|];
        assert Log(s') == Log(s) + [e] && e in Log(s') && e.epoch == Epoch(s');
        forall o
          ensures Logged(s', o) <==> Logged(s, o) || o == e
        {
          assert s'.logs[Epoch(s)] == Log(s) + [e];
        }
      }
      MoveKeeps(s, s', t, s'.acts.threads[t]);
    }
  }

  lemma PipelineKeeps(s: Room, ev: ActionEvent)
    requires Inv(s)
    requires !ev.RunScript? && !ev.Work? && !ev.Enqueue?
    ensures Inv(ActionStep(s, ev))
  {
    var s' := ActionStep(s, ev);
    assert s'.logs == s.logs;
    assert forall e :: Logged(s', e) <==> Logged(s, e);
    if s' != s {
      MoveKeeps(s, s', ev.t, s'.acts.threads[ev.t]);
    }
  }

  lemma EnqueueKeeps(s: Room, t: nat, ok: bool)
    requires Inv(s)
    ensures Inv(DoEnqueue(s, t, ok))
  {
    var s' := DoEnqueue(s, t, ok);
    assert forall e :: Logged(s', e) <==> Logged(s, e);
    if t in s.acts.threads && s.acts.threads[t].Published? {
      var e := s.acts.threads[t].e;
      if ok {
        assert s'.acts.queue[|s.acts.queue|].e == e;
      }
      MoveKeeps(s, s', t, Completed(e));
    }
  }

  lemma StepKeeps(s: Room, ev: Event)
    requires Inv(s)
    ensures Inv(Step(s, ev))
  {
    match ev
    case OnAction(RunScript(t, r)) => ScriptKeeps(s, t, r);
    case OnAction(Work(i, x, k)) => WorkKeeps(s, i, x, k);
    case OnAction(Enqueue(t, ok)) => EnqueueKeeps(s, t, ok);
    case OnAction(a) => PipelineKeeps(s, a);
    case _ => ElsewhereKeeps(s, Step(s, ev));
  }

  /** Snapshot steps, ticks and cleanups apply nothing and settle nothing. */
  lemma ElsewhereKeeps(s: Room, s': Room)
    requires Inv(s) && s'.logs != []
    requires s'.acts == s.acts.(pushes := s'.acts.pushes, slack := s'.acts.slack)
    requires s'.logs == s.logs || s'.logs == s.logs + [[]]
    ensures Inv(s')
  {
    assert forall e :: Logged(s', e) <==> Logged(s, e);
    assert forall e :: InFlight(s'.acts, e) <==> InFlight(s.acts, e);
  }

  lemma {:induction false} RunKeeps(start: Room, es: seq<Event>)
    requires Inv(start)
    ensures Inv(Run(start, es))
  {
    if es != [] {
      RunKeeps(start, es[..|es| - 1]);
      StepKeeps(Run(start, es[..|es| - 1]), es[|es| - 1]);
    }
  }

  lemma Always(s: Room)
    requires Reachable(s)
    ensures Inv(s)
  {
    var id, now, es :| s == Run(Init(id, now), es);
    assert forall e :: !Logged(Init(id, now), e);
    RunKeeps(Init(id, now), es);
  }

  // ----- what the invariant means -------------------------------------------

  /** Every applied action is still carried by its goroutine, or settled; and one
      whose goroutine has finished is settled. */
  lemma EveryActionAccounted(s: Room)
    requires Reachable(s)
    ensures forall e :: Logged(s, e) ==> InFlight(s.acts, e) || Settled(s.acts, e)
    ensures forall t :: t in s.acts.threads && s.acts.threads[t].Completed? ==> Settled(s.acts, s.acts.threads[t].e)
    ensures forall e :: e in s.acts.rows ==> Logged(s, e)
  {
    Always(s);
  }

  /** The three ways to lose an action: its script ran but the answer got lost, its task
      could not be enqueued, or its task was archived with no row inserted. */
  ghost predicate Loses(s: Room, ev: Event, e: Entry)
    requires s.logs != []
  {
    ev.OnAction? &&
    match ev.a
    case RunScript(t, reply) => reply == Failed(true) && e in Log(Step(s, ev)) && e.epoch == Epoch(s)
    case Enqueue(t, ok) => !ok && t in s.acts.threads && s.acts.threads[t] == Published(e)
    case Work(i, inserted, acknowledged) =>
      && !acknowledged && i < |s.acts.queue| && s.acts.queue[i].e == e
      && s.acts.queue[i].retries >= 25 && e !in Step(s, ev).acts.rows
    case _ => false
  }

  lemma LostOnlyByFailure(s: Room, ev: Event, e: Entry)
    requires s.logs != [] && e !in s.acts.lost && e in Step(s, ev).acts.lost
    ensures Loses(s, ev, e)
  {
    hide FieldKey;
  }

  /** Event `n` of the run is the one that lost this action. */
  ghost predicate LostAt(id: nat, now: int, es: seq<Event>, n: nat, e: Entry) {
    n < |es| &&
    var s := Run(Init(id, now), es[..n]);
    e !in s.acts.lost && e in Step(s, es[n]).acts.lost && Loses(s, es[n], e)
  }

  /** Every lost action was lost by one event of the run, which is one such failure. */
  lemma {:induction false} LostWasFailure(id: nat, now: int, es: seq<Event>, e: Entry) returns (n: nat)
    requires e in Run(Init(id, now), es).acts.lost
    ensures LostAt(id, now, es, n, e)
  {
    var before := es[..|es| - 1];
    if e in Run(Init(id, now), before).acts.lost {
      n := LostWasFailure(id, now, before, e);
      assert before[..n] == es[..n];
    } else {
      n := |es| - 1;
      LostOnlyByFailure(Run(Init(id, now), before), es[n], e);
    }
  }

  /** No goroutine carries this action or completed the pipeline with it. */
  ghost predicate Unanswered(a: Acts, e: Entry) {
    forall t :: t in a.threads && (Carries(a.threads[t]) || a.threads[t].Completed?) ==> a.threads[t].e != e
  }

  lemma UnansweredStays(s: Room, ev: Event, e: Entry)
    requires Inv(s) && BoardSafety.Inv(s) && Logged(s, e) && Unanswered(s.acts, e)
    ensures Unanswered(Step(s, ev).acts, e) && Logged(Step(s, ev), e)
  {
    hide FieldKey, BoardSafety.BoardOk, NothingForgotten;
    if ev.OnAction? && ev.a.RunScript? {
      ScriptUnanswered(s, ev.a.t, ev.a.reply, e);
    }
  }

  /** The script never logs the same action again. */
  lemma ScriptUnanswered(s: Room, t: nat, r: Reply, e: Entry)
    requires Inv(s) && BoardSafety.Inv(s) && Logged(s, e) && Unanswered(s.acts, e)
    ensures Unanswered(DoApply(s, t, r).acts, e) && Logged(DoApply(s, t, r), e)
  {
    hide FieldKey, BoardSafety.BoardOk, NothingForgotten;
    var s' := DoApply(s, t, r);
    if t in s.acts.threads && s'.acts.threads[t].Applied? && s'.acts != s.acts && s.acts.threads[t].Bumped? {
      var o := s'.acts.threads[t].e;
      assert o.epoch == Epoch(s) && o.action.version == s.redis.version + 1;
      assert o != e;
    }
  }

  /** An action whose script answer got lost is new, and nobody gets it. */
  lemma LostAnswerUnanswered(s: Room, ev: Event, e: Entry)
    requires Inv(s) && BoardSafety.Inv(s) && e !in s.acts.lost && e in Step(s, ev).acts.lost
    requires ev.OnAction? && ev.a.RunScript?
    ensures Unanswered(Step(s, ev).acts, e) && Logged(Step(s, ev), e)
  {
    hide FieldKey, BoardSafety.BoardOk, NothingForgotten;
    var s' := Step(s, ev);
    assert e.epoch == Epoch(s) && e.action.version == s.redis.version + 1 && !Logged(s, e);
    assert s'.logs == s.logs[Epoch(s) := Log(s) + [e]];
    assert e in s'.logs[e.epoch];
  }

  lemma {:induction false} UnansweredSince(id: nat, now: int, es: seq<Event>, n: nat, e: Entry)
    requires n <= |es|
    requires Logged(Run(Init(id, now), es[..n]), e) && Unanswered(Run(Init(id, now), es[..n]).acts, e)
    ensures Logged(Run(Init(id, now), es), e) && Unanswered(Run(Init(id, now), es).acts, e)
  {
    if n == |es| {
      assert es[..n] == es;
    } else {
      var before := es[..|es| - 1];
      assert before[..n] == es[..n];
      UnansweredSince(id, now, before, n, e);
      RunReachable(id, now, before);
      Always(Run(Init(id, now), before));
      BoardSafety.Always(Run(Init(id, now), before));
      UnansweredStays(Run(Init(id, now), before), es[|es| - 1], e);
    }
  }

  lemma RunReachable(id: nat, now: int, es: seq<Event>)
    ensures Reachable(Run(Init(id, now), es))
  {
  }

  /** After a lost script answer nobody ever carries or completes the action. */
  lemma LostAnswerForever(id: nat, now: int, es: seq<Event>, n: nat, e: Entry)
    requires LostAt(id, now, es, n, e) && es[n].OnAction? && es[n].a.RunScript?
    ensures Unanswered(Run(Init(id, now), es).acts, e)
  {
    hide Step, Inv, BoardSafety.Inv, Loses;
    var s := Run(Init(id, now), es[..n]);
    RunReachable(id, now, es[..n]);
    Always(s);
    BoardSafety.Always(s);
    LostAnswerUnanswered(s, es[n], e);
    assert es[..n + 1][..n] == es[..n];
    assert Run(Init(id, now), es[..n + 1]) == Step(s, es[n]);
    UnansweredSince(id, now, es, n + 1, e);
  }

  /** An action that completed the pipeline is lost in two ways only: its task could not be
      enqueued, or its task was archived with no row inserted. */
  lemma CompletedLostWasFailure(id: nat, now: int, es: seq<Event>, t: nat, e: Entry) returns (n: nat)
    requires var a := Run(Init(id, now), es).acts; t in a.threads && a.threads[t] == Completed(e) && e in a.lost
    ensures LostAt(id, now, es, n, e) && (es[n].a.Enqueue? || es[n].a.Work?)
  {
    hide Step, Run;
    n := LostWasFailure(id, now, es, e);
    LostByAction(id, now, es, n, e);
    if es[n].a.RunScript? {
      LostAnswerForever(id, now, es, n, e);
      assert false;
    }
  }

  lemma LostByAction(id: nat, now: int, es: seq<Event>, n: nat, e: Entry)
    requires LostAt(id, now, es, n, e)
    ensures es[n].OnAction? && (es[n].a.RunScript? || es[n].a.Enqueue? || es[n].a.Work?)
  {
    hide Step, Run;
  }

  /** The last task of the queue is delivered `n` times and every delivery fails. */
  function Failing(s: Room, n: nat): (s': Room)
    requires s.logs != [] && s.acts.queue != []
    ensures s'.logs != []
  {
    if n == 0 then s else Step(Failing(s, n - 1), OnAction(Work(|s.acts.queue| - 1, false, false)))
  }

  lemma {:induction false} KeepsTrying(s: Room, n: nat)
    requires s.logs != [] && s.acts.queue != [] && s.acts.queue[|s.acts.queue| - 1].retries == 0 && n <= 25
    ensures var q, i := s.acts.queue, |s.acts.queue| - 1;
      Failing(s, n) == s.(acts := s.acts.(queue := q[i := Task(q[i].e, n)]))
  {
    if n > 0 {
      KeepsTrying(s, n - 1);
    } else {
      assert s.acts.queue[|s.acts.queue| - 1 := s.acts.queue[|s.acts.queue| - 1]] == s.acts.queue;
    }
  }

  /** An enqueued action's task survives 25 failed deliveries, the 26th archives it, and with
      no row inserted the action is lost. */
  lemma ArchivedAtThe26th(s: Room, t: nat, n: nat)
    requires s.logs != [] && t in s.acts.threads && s.acts.threads[t].Published? && n <= 25
    ensures var e, q := s.acts.threads[t].e, Step(s, OnAction(Enqueue(t, true)));
      && q.acts.queue != [] && q.acts.rows == s.acts.rows && q.acts.lost == s.acts.lost
      && Failing(q, n).acts == q.acts.(queue := s.acts.queue + [Task(e, n)])
      && Failing(q, 26).acts.queue == s.acts.queue && Failing(q, 26).acts.rows == s.acts.rows
      && (e !in s.acts.rows ==> Failing(q, 26).acts.lost == s.acts.lost + {e})
  {
    var q := Step(s, OnAction(Enqueue(t, true)));
    KeepsTrying(q, n);
    KeepsTrying(q, 25);
    assert (s.acts.queue + [Task(s.acts.threads[t].e, 25)])[..|s.acts.queue|] == s.acts.queue;
  }

  /** One delivery by the worker, whose insert has this fate: an answered one takes just that
      task off the queue, with its row in the table; another one leaves it there for the next
      of its 26 tries, or archives it, and may have inserted the row all the same. */
  lemma DeliveryIsStep(s: Room, i: nat, net: Reply)
    requires s.logs != [] && i < |s.acts.queue|
    ensures var task, a, a' := s.acts.queue[i], s.acts, Step(s, OnAction(Work(i, net.Executed(), net.Answered?))).acts;
      && a' == a.(queue := a'.queue, rows := a'.rows, lost := a'.lost)
      && a'.rows == (if net.Executed() then a.rows + [task.e] else a.rows)
      && a'.queue == (if net.Failed? && task.retries < 25 then a.queue[i := Task(task.e, task.retries + 1)]
                      else a.queue[..i] + a.queue[i + 1..])
      && a'.lost == if net.Failed? && task.retries >= 25 && task.e !in a'.rows then a.lost + {task.e} else a.lost
  {
    hide DoWork;
    WorkDone(s.acts, i, net);
  }

  lemma WorkDone(a: Acts, i: nat, net: Reply)
    requires i < |a.queue|
    ensures var task, a' := a.queue[i], DoWork(a, i, net.Executed(), net.Answered?);
      && a' == a.(queue := a'.queue, rows := a'.rows, lost := a'.lost)
      && a'.rows == (if net.Executed() then a.rows + [task.e] else a.rows)
      && a'.queue == (if net.Failed? && task.retries < 25 then a.queue[i := Task(task.e, task.retries + 1)]
                      else a.queue[..i] + a.queue[i + 1..])
      && a'.lost == if net.Failed? && task.retries >= 25 && task.e !in a'.rows then a.lost + {task.e} else a.lost
  {
  }

  ghost function RowsOf(s: Room, k: nat): set<Entry> {
    set e | e in s.acts.rows && e.epoch == k
  }

  /** An action of epoch `k` that no later action of the epoch overwrote. */
  ghost predicate Final(s: Room, k: nat, e: Entry)
    requires k < |s.logs|
  {
    e in s.logs[k] && forall o :: o in s.logs[k] && EditOf(o.action).field == EditOf(e.action).field
                                ==> o.action.version <= e.action.version
  }

  /** If each cell's final action was saved, the epoch's rows, read back by version
      with whatever duplicates the retries left, replay to the epoch's board. */
  lemma SavedRowsRestoreBoard(s: Room, k: nat, got: seq<Entry>)
    requires Reachable(s) && k < |s.logs|
    requires forall e :: Final(s, k, e) ==> e in s.acts.rows
    requires SetOf(got) == RowsOf(s, k) && ByVersion(Edits(got))
    ensures Replay(map[], Edits(got)) == Replay(map[], Edits(s.logs[k]))
  {
    hide FieldKey;
    Always(s);
    BoardSafety.Always(s);
    var log := s.logs[k];
    assert BoardSafety.LogOk(log, k, s.id);
    BoardSafety.OrderedIdentifies(log);
    var all, kept := SetOf(Edits(log)), SetOf(Edits(got));
    assert SetOf(got) <= SetOf(log);
    BoardSafety.EditsWithin(got, log);
    forall x | Wins(all, x)
      ensures x in kept
    {
      var i :| 0 <= i < |log| && Edits(log)[i] == x;
      FinalOfWinner(s, k, i);
      assert log[i] in SetOf(got);
      var j :| 0 <= j < |got| && got[j] == log[i];
      assert Edits(got)[j] == x;
    }
    SortedReplayIsLww(Edits(got));
    WinnersSuffice(Replay(map[], Edits(got)), kept, all);
    SortedReplayIsLww(Edits(log));
    LwwUnique(Replay(map[], Edits(got)), Replay(map[], Edits(log)), all);
  }

  lemma FinalOfWinner(s: Room, k: nat, i: nat)
    requires k < |s.logs| && i < |s.logs[k]|
    requires Wins(SetOf(Edits(s.logs[k])), Edits(s.logs[k])[i])
    ensures Final(s, k, s.logs[k][i])
  {
    hide FieldKey;
    var log := s.logs[k];
    forall o | o in log && EditOf(o.action).field == EditOf(log[i].action).field
      ensures o.action.version <= log[i].action.version
    {
      var j :| 0 <= j < |log| && log[j] == o;
      assert Edits(log)[j] in SetOf(Edits(log));
    }
  }

  /** Epoch `k` has drained: nothing of it is carried, queued or lost. */
  ghost predicate Drained(s: Room, k: nat) {
    && (forall t :: t in s.acts.threads && Carries(s.acts.threads[t]) ==> s.acts.threads[t].e.epoch != k)
    && (forall i :: 0 <= i < |s.acts.queue| ==> s.acts.queue[i].e.epoch != k)
    && (forall e :: e in s.acts.lost ==> e.epoch != k)
  }

  /** A drained epoch has exactly its applied actions in the table, so its rows
      restore its exact board. */
  lemma DrainedEpochRestores(s: Room, k: nat, got: seq<Entry>)
    requires Reachable(s) && k < |s.logs| && Drained(s, k)
    requires SetOf(got) == RowsOf(s, k) && ByVersion(Edits(got))
    ensures RowsOf(s, k) == SetOf(s.logs[k])
    ensures Replay(map[], Edits(got)) == Replay(map[], Edits(s.logs[k]))
  {
    hide FieldKey;
    Always(s);
    BoardSafety.Always(s);
    assert BoardSafety.LogOk(s.logs[k], k, s.id);
    forall e | e in s.logs[k]
      ensures e in s.acts.rows
    {
      assert Logged(s, e);
    }
    SavedRowsRestoreBoard(s, k, got);
  }

  lemma AppliedOnce() returns (s: Room)
    ensures Reachable(s) && |s.logs| == 1 && |s.logs[0]| == 1 && s.logs[0][0].action.data == DrawData(0, 0, "red")
    ensures s.acts == Init(7, 0).acts.(threads := map[0 := Applied(s.logs[0][0])])
  {
    hide FieldKey;
    var e0 := OnAction(Receive(0, Incoming(1, "draw", DrawData(0, 0, "red"))));
    var e1, e2 := OnAction(Increment(0, Answered)), OnAction(RunScript(0, Answered));
    InitReachable(7, 0);
    var s0 := Step(Init(7, 0), e0);
    StepReachable(Init(7, 0), e0);
    var s1 := Step(s0, e1);
    StepReachable(s0, e1);
    s := Step(s1, e2);
    StepReachable(s1, e2);
  }

  lemma PublishedOnce() returns (s: Room)
    ensures Reachable(s) && |s.logs| == 1 && |s.logs[0]| == 1 && s.logs[0][0].action.data == DrawData(0, 0, "red")
    ensures var a := s.acts; a == Init(7, 0).acts.(
      threads := map[0 := Published(s.logs[0][0])], published := [s.logs[0][0]], pushes := a.pushes)
  {
    hide FieldKey;
    var e0, e1, e2 := OnAction(PushHistory(0, true)), OnAction(TrimHistory(0, true)), OnAction(Publish(0, true));
    var s0 := AppliedOnce();
    var s1 := Step(s0, e0);
    StepReachable(s0, e0);
    var s2 := Step(s1, e1);
    StepReachable(s1, e1);
    s := Step(s2, e2);
    StepReachable(s2, e2);
  }

  /** A failed enqueue is only logged: a draw that everybody saw may reach no row, and
      then the epoch's rows no longer give its board. */
  lemma LostEnqueueLosesTheDraw() returns (s: Room)
    ensures Reachable(s) && |s.logs| == 1 && s.acts.queue == [] && RowsOf(s, 0) == {}
    ensures forall t :: t in s.acts.threads ==> s.acts.threads[t].Completed?
    ensures |s.acts.published| == 1 && s.acts.lost == SetOf(s.logs[0])
    ensures Replay(map[], Edits([])) != Replay(map[], Edits(s.logs[0]))
  {
    hide FieldKey, Edits, Replay;
    var s0 := PublishedOnce();
    var e0 := OnAction(Enqueue(0, false));
    s := Step(s0, e0);
    StepReachable(s0, e0);
    assert s.logs[0] == [s.logs[0][0]];
    RedShows(s.logs[0][0]);
  }

  lemma RedShows(e: Entry)
    requires e.action.data.color != ""
    ensures Replay(map[], Edits([])) != Replay(map[], Edits([e]))
  {
    hide FieldKey;
    assert [e] == [] + [e];
    BoardSafety.EntryReplays([], e);
    assert EditOf(e.action).field in Replay(map[], Edits([e]));
  }
}
