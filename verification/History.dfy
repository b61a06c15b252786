/** The room's history list, written by an RPUSH and an LTRIM that other
    goroutines may come between. */
module History {
  import opened Domain
  import opened RoomData
  import opened RoomMachine

  function Min(a: nat, b: nat): nat {
    if a < b then a else b
  }

  /** The goroutines that pushed in this epoch and have not run their trim yet. */
  ghost function Pending(s: Room): set<nat>
    requires s.logs != []
  {
    set t | t in s.acts.threads && s.acts.threads[t].Pushed? && s.acts.threads[t].at == Epoch(s)
  }

  /** `slack` counts the trims that failed since the last one that ran. */
  ghost predicate Bounded(history: seq<Action>, pushes: seq<Action>, pending: nat) {
    && history == Last(pushes, |history|)
    && Min(HISTORY_LIMIT, |pushes|) <= |history| <= HISTORY_LIMIT + pending
  }

  ghost predicate Inv(s: Room) {
    && s.logs != []
    && (forall t :: t in s.acts.threads && s.acts.threads[t].Pushed? ==> s.acts.threads[t].at <= Epoch(s))
    && Bounded(s.redis.history, s.acts.pushes, |Pending(s)| + s.acts.slack)
  }

  lemma PushKeeps(s: Room, t: nat, executed: bool)
    requires Inv(s)
    ensures Inv(DoPush(s, t, executed))
  {
    var s' := DoPush(s, t, executed);
    if t in s.acts.threads && s.acts.threads[t].Applied? {
      assert Pending(s') == if executed then Pending(s) + {t} else Pending(s);
    }
  }

  lemma TrimKeeps(s: Room, t: nat, executed: bool)
    requires Inv(s)
    ensures Inv(DoTrim(s, t, executed))
  {
    var s' := DoTrim(s, t, executed);
    if t in s.acts.threads && s.acts.threads[t].Pushed? {
      assert Pending(s') == Pending(s) - {t};
      assert t in Pending(s) <==> s.acts.threads[t].at == Epoch(s);
    }
  }

  /** Nothing that leaves the list, the pushes and the goroutines between push and
      trim alone can disturb the invariant. */
  lemma OtherStepsKeep(s: Room, s': Room)
    requires Inv(s) && |s'.logs| == |s.logs|
    requires s'.redis.history == s.redis.history
    requires s'.acts.pushes == s.acts.pushes && s'.acts.slack == s.acts.slack
    requires forall t :: t in s'.acts.threads && s'.acts.threads[t].Pushed?
                    <==> t in s.acts.threads && s.acts.threads[t].Pushed?
    requires forall t :: t in s.acts.threads && s.acts.threads[t].Pushed?
                     ==> s'.acts.threads[t] == s.acts.threads[t]
    ensures Inv(s')
  {
    assert Pending(s') == Pending(s);
  }

  lemma BeforePushKeeps(s: Room, ev: ActionEvent)
    requires Inv(s) && (ev.Receive? || ev.Increment? || ev.RunScript?)
    ensures Inv(ActionStep(s, ev))
  {
    hide FieldKey, Inv;
    assert s.logs != [] by { HasLog(s); }
    OtherStepsKeep(s, ActionStep(s, ev));
  }

  lemma AfterTrimKeeps(s: Room, ev: ActionEvent)
    requires Inv(s) && (ev.Publish? || ev.Enqueue? || ev.Work?)
    ensures Inv(ActionStep(s, ev))
  {
    hide FieldKey, Inv;
    assert s.logs != [] by { HasLog(s); }
    OtherStepsKeep(s, ActionStep(s, ev));
  }

  lemma HasLog(s: Room)
    requires Inv(s)
    ensures s.logs != []
  {
  }

  lemma ActionKeeps(s: Room, ev: ActionEvent)
    requires Inv(s)
    ensures Inv(ActionStep(s, ev))
  {
    match ev
    case PushHistory(t, x) => PushKeeps(s, t, x);
    case TrimHistory(t, x) => TrimKeeps(s, t, x);
    case Receive(_, _) => BeforePushKeeps(s, ev);
    case Increment(_, _) => BeforePushKeeps(s, ev);
    case RunScript(_, _) => BeforePushKeeps(s, ev);
    case _ => AfterTrimKeeps(s, ev);
  }

  lemma StepKeeps(s: Room, ev: Event)
    requires Inv(s)
    ensures Inv(Step(s, ev))
  {
    match ev
    case OnAction(a) => ActionKeeps(s, a);
    case OnSnapshot(p) => OtherStepsKeep(s, SnapshotStep(s, p));
    case Tick(d) => OtherStepsKeep(s, Step(s, ev));
    case Cleanup => assert Pending(CleanupStep(s)) == {};
  }

  lemma {:induction false} RunKeeps(start: Room, es: seq<Event>)
    requires Inv(start)
    ensures Inv(Run(start, es))
  {
    if es != [] {
      RunKeeps(start, es[..|es| - 1]);
      StepKeeps(Run(start, es[..|es| - 1]), es[|es| - 1]);
    }
  }

  lemma Always(s: Room)
    requires Reachable(s)
    ensures Inv(s)
  {
    var id, now, es :| s == Run(Init(id, now), es);
    RunKeeps(Init(id, now), es);
  }

  /** GetRecentActions: LRANGE -limit -1, a limit of zero or less meaning 100. */
  function Recent(history: seq<Action>, limit: int): seq<Action> {
    Last(history, if limit <= 0 then HISTORY_LIMIT else limit)
  }

  /** The history holds the newest pushes of the epoch in order: never fewer than 100 of
      them, or all, and never more than 100 and the trims still owed. */
  lemma HistoryIsSuffix(s: Room)
    requires Reachable(s)
    ensures 100 <= |s.redis.history| <= |s.acts.pushes| || s.redis.history == s.acts.pushes
    ensures forall i :: 0 <= i < |s.redis.history| ==>
              s.redis.history[i] == s.acts.pushes[|s.acts.pushes| - |s.redis.history| + i]
    ensures |s.redis.history| <= 100 + |Pending(s)| + s.acts.slack
  {
    Always(s);
  }

  /** A reader that asks for `limit` gets that many of the newest pushes, or the whole list
      if that is shorter, and 100 is what it asks for with a limit of zero or less. With no
      trim owed the list is the last 100 pushes, or all if there are fewer. */
  lemma RecentActions(s: Room, limit: int)
    requires Reachable(s)
    ensures var got, n, k := Recent(s.redis.history, limit), |s.acts.pushes|, if limit <= 0 then 100 else limit;
      && |got| == (if |s.redis.history| < k then |s.redis.history| else k)
      && |got| <= n && forall i :: 0 <= i < |got| ==> got[i] == s.acts.pushes[n - |got| + i]
    ensures Pending(s) == {} && s.acts.slack == 0 ==>
              |s.redis.history| == if |s.acts.pushes| < 100 then |s.acts.pushes| else 100
  {
    hide Recent, Inv, Reachable;
    HistoryIsSuffix(s);
    ListBounds(s);
    RecentAre(s.redis.history, limit);
  }

  lemma ListBounds(s: Room)
    requires Reachable(s)
    ensures |s.redis.history| <= |s.acts.pushes|
    ensures Pending(s) == {} && s.acts.slack == 0 ==>
              |s.redis.history| == if |s.acts.pushes| < 100 then |s.acts.pushes| else 100
  {
    Always(s);
  }

  /** The newest entries of a list, in order. */
  lemma RecentAre(history: seq<Action>, limit: int)
    ensures var got, k := Recent(history, limit), if limit <= 0 then 100 else limit;
      && |got| == (if |history| < k then |history| else k)
      && forall i :: 0 <= i < |got| ==> got[i] == history[|history| - |got| + i]
  {
    var k := if limit <= 0 then 100 else limit;
    assert Recent(history, limit) == if |history| <= k then history else history[|history| - k..];
  }
}
