/** Whose message an applied action is. */
module Provenance {
  import opened Wrappers
  import opened Domain
  import opened RoomMachine

  predicate IsReceive(ev: Event, t: nat) {
    ev.OnAction? && ev.a.Receive? && ev.a.t == t
  }

  /** Goroutine `t` was started by event `n`; later receptions under its number are ignored. */
  ghost predicate StartedBy(es: seq<Event>, t: nat, n: nat) {
    n < |es| && IsReceive(es[n], t) && forall m :: 0 <= m < n ==> !IsReceive(es[m], t)
  }

  ghost predicate HasInput(es: seq<Event>, t: nat, i: Incoming) {
    exists n: nat :: StartedBy(es, t, n) && es[n].a.input == i
  }

  ghost predicate NotStarted(es: seq<Event>, t: nat) {
    forall m :: 0 <= m < |es| ==> !IsReceive(es[m], t)
  }

  predicate Fresh(p: Stage) {
    p.Received? || p.Bumped?
  }

  /** A goroutine that has not applied its action yet has the input it was started with. */
  ghost predicate Inputs(es: seq<Event>, threads: map<nat, Stage>) {
    && (forall t :: t !in threads ==> NotStarted(es, t))
    && (forall t :: t in threads && Fresh(threads[t]) ==> HasInput(es, t, threads[t].input))
  }

  lemma StartedStays(es: seq<Event>, ev: Event, t: nat, i: Incoming)
    requires HasInput(es, t, i)
    ensures HasInput(es + [ev], t, i)
  {
    var n: nat :| StartedBy(es, t, n) && es[n].a.input == i;
    assert StartedBy(es + [ev], t, n);
  }

  lemma StartsNow(es: seq<Event>, t: nat, i: Incoming)
    requires NotStarted(es, t)
    ensures HasInput(es + [OnAction(Receive(t, i))], t, i)
  {
    assert StartedBy(es + [OnAction(Receive(t, i))], t, |es|);
  }

  /** Goroutine `t` is started by this very event, or goes on with its input, or is past it. */
  predicate InputKept(threads: map<nat, Stage>, threads': map<nat, Stage>, ev: Event, t: nat) {
    && (t !in threads' ==> t !in threads && !IsReceive(ev, t))
    && (t in threads' && Fresh(threads'[t]) ==>
          if t in threads then Fresh(threads[t]) && threads'[t].input == threads[t].input
          else ev == OnAction(Receive(t, threads'[t].input)))
  }

  lemma EarlyInputs(s: Room, ev: ActionEvent, t: nat)
    requires s.logs != [] && (ev.Receive? || ev.Increment?)
    ensures InputKept(s.acts.threads, ActionStep(s, ev).acts.threads, OnAction(ev), t)
  {
    hide DoApply, DoPush, DoTrim, DoPublish, DoEnqueue, DoWork;
  }

  lemma LateInputs(s: Room, ev: ActionEvent, t: nat)
    requires s.logs != [] && !ev.Receive? && !ev.Increment?
    ensures InputKept(s.acts.threads, ActionStep(s, ev).acts.threads, OnAction(ev), t)
  {
    hide DoReceive, DoIncrement, FieldKey;
    var s' := ActionStep(s, ev);
    assert s'.acts.threads == s.acts.threads || (!ev.Work? && ev.t in s.acts.threads
      && s'.acts.threads == s.acts.threads[ev.t := s'.acts.threads[ev.t]] && !Fresh(s'.acts.threads[ev.t]));
  }

  lemma StepInputs(s: Room, ev: Event, t: nat)
    requires s.logs != []
    ensures InputKept(s.acts.threads, Step(s, ev).acts.threads, ev, t)
  {
    hide ActionStep;
    if ev.OnAction? {
      if ev.a.Receive? || ev.a.Increment? {
        EarlyInputs(s, ev.a, t);
      } else {
        LateInputs(s, ev.a, t);
      }
    }
  }

  lemma {:induction false} RunInputs(id: nat, now: int, es: seq<Event>)
    ensures Inputs(es, Run(Init(id, now), es).acts.threads) && Run(Init(id, now), es).id == id
  {
    if es != [] {
      var n := |es| - 1;
      var before, ev := es[..n], es[n];
      var s := Run(Init(id, now), before);
      RunInputs(id, now, before);
      assert es == before + [ev];
      forall t
        ensures t !in Step(s, ev).acts.threads ==> NotStarted(es, t)
        ensures var threads := Step(s, ev).acts.threads;
          t in threads && Fresh(threads[t]) ==> HasInput(es, t, threads[t].input)
      {
        InputsKept(before, s, ev, t);
      }
      IdStays(s, ev);
    }
  }

  lemma IdStays(s: Room, ev: Event)
    requires s.logs != []
    ensures Step(s, ev).id == s.id
  {
  }

  lemma InputsKept(es: seq<Event>, s: Room, ev: Event, t: nat)
    requires s.logs != [] && Inputs(es, s.acts.threads)
    ensures t !in Step(s, ev).acts.threads ==> NotStarted(es + [ev], t)
    ensures var threads := Step(s, ev).acts.threads;
      t in threads && Fresh(threads[t]) ==> HasInput(es + [ev], t, threads[t].input)
  {
    hide Step, HasInput;
    StepInputs(s, ev, t);
    var threads := Step(s, ev).acts.threads;
    if t in threads && Fresh(threads[t]) {
      if t in s.acts.threads {
        StartedStays(es, ev, t, threads[t].input);
      } else {
        StartsNow(es, t, threads[t].input);
      }
    }
  }

  /** The action is this message of this user, in this room. */
  predicate IsMessage(a: Action, roomID: nat, i: Incoming) {
    a.roomID == roomID && a.userID == i.userID && a.actionType == i.actionType && a.data == i.data
  }

  /** What joins a log is the message of the goroutine whose script ran. */
  lemma NewlyLogged(s: Room, ev: Event, k: nat, e: Entry)
    requires s.logs != [] && k < |Step(s, ev).logs| && e in Step(s, ev).logs[k] && !(k < |s.logs| && e in s.logs[k])
    ensures ev.OnAction? && ev.a.RunScript? && ev.a.t in s.acts.threads && s.acts.threads[ev.a.t].Bumped?
    ensures k == e.epoch == Epoch(s) && |Step(s, ev).logs| == |s.logs| && Step(s, ev).logs[k] == s.logs[k] + [e]
    ensures IsMessage(e.action, s.id, s.acts.threads[ev.a.t].input) && e.action.version == s.redis.version + 1
  {
    hide FieldKey;
  }

  /** The script of goroutine `t`, event `m` of the run, logged this action. */
  ghost predicate AppliedAt(id: nat, now: int, es: seq<Event>, m: nat, t: nat, e: Entry) {
    && m < |es| && es[m].OnAction? && es[m].a.RunScript? && es[m].a.t == t
    && var s, s' := Run(Init(id, now), es[..m]), Step(Run(Init(id, now), es[..m]), es[m]);
       && e.epoch < |s.logs| == |s'.logs| && s'.logs[e.epoch] == s.logs[e.epoch] + [e]
       && e.action.version == s.redis.version + 1
  }

  /** Every applied action is the message one goroutine was started with: that user's, of
      that type and with that data, under the room's number; and its version is the one
      after the counter that its script found. */
  lemma {:induction false} AppliedWasSent(id: nat, now: int, es: seq<Event>, k: nat, e: Entry)
    returns (t: nat, n: nat, m: nat)
    requires var s := Run(Init(id, now), es); k < |s.logs| && e in s.logs[k]
    ensures StartedBy(es, t, n) && n < m && AppliedAt(id, now, es, m, t, e)
    ensures IsMessage(e.action, id, es[n].a.input)
  {
    hide Step, IsMessage;
    assert es != [];
    var last := |es| - 1;
    var before := es[..last];
    var s := Run(Init(id, now), before);
    assert Run(Init(id, now), es) == Step(s, es[last]);
    if k < |s.logs| && e in s.logs[k] {
      t, n, m := AppliedWasSent(id, now, before, k, e);
      assert before[..m] == es[..m];
    } else {
      NewlyLogged(s, es[last], k, e);
      RunInputs(id, now, before);
      t, m := es[last].a.t, last;
      n :| StartedBy(before, t, n) && before[n].a.input == s.acts.threads[t].input;
    }
  }
}
