/** What one subscriber loop can hear of its room. */
module Hearing {
  import opened Domain
  import opened HubMachine

  /** A loop keeps its room and never goes back. */
  ghost predicate GoesOn(u: Subs, u': Subs, l: nat) {
    l in u.loops ==> l in u'.loops && u'.loops[l].room == u.loops[l].room && u.loops[l].cursor <= u'.loops[l].cursor
  }

  lemma LoopGoesOn(s: Hub, e: LoopEvent, l: nat)
    ensures GoesOn(s.subs, LoopStep(s, e).subs, l)
  {
  }

  lemma MainGoesOn(s: Hub, e: MainEvent, l: nat)
    ensures GoesOn(s.subs, MainStep(s, e).subs, l)
  {
    hide AddClient, RemoveClient, IsRegistered;
  }

  lemma StepGoesOn(s: Hub, ev: Event, l: nat)
    ensures GoesOn(s.subs, Step(s, ev).subs, l)
  {
    hide LoopStep, MainStep;
    match ev
    case OnLoop(e) => LoopGoesOn(s, e, l);
    case OnMain(e) => MainGoesOn(s, e, l);
    case _ =>
  }

  lemma {:induction false} RunGoesOn(es: seq<Event>, k: nat, m: nat, l: nat)
    requires k <= m <= |es|
    ensures GoesOn(Run(es[..k]).subs, Run(es[..m]).subs, l)
    decreases m
  {
    hide Step;
    if k < m {
      RunGoesOn(es, k, m - 1, l);
      assert es[..m][..m - 1] == es[..m - 1];
      StepGoesOn(Run(es[..m - 1]), es[m - 1], l);
    }
  }

  /** Event `m` is the reception of publication `at` by loop `l`. */
  ghost predicate Receives(es: seq<Event>, m: nat, l: nat, at: nat) {
    && m < |es| && es[m] == OnLoop(Receive(l, at))
    && Run(es[..m + 1]).topics != Run(es[..m]).topics
  }

  /** Event `k` starts loop `l` for this room. */
  ghost predicate Starts(es: seq<Event>, k: nat, l: nat, r: nat) {
    && k < |es| && es[k] == OnMain(Subscribe(l)) && l !in Run(es[..k]).subs.loops
    && l in Run(es[..k + 1]).subs.loops && Run(es[..k + 1]).subs.loops[l].room == r
  }

  lemma ReceiveMoves(s: Hub, l: nat, at: nat)
    requires Step(s, OnLoop(Receive(l, at))).topics != s.topics
    ensures var s' := Step(s, OnLoop(Receive(l, at)));
      && l in s.subs.loops && s.subs.loops[l].cursor <= at && l in s'.subs.loops && s'.subs.loops[l].cursor == at + 1
      && var r := s.subs.loops[l].room;
         && at < |TopicOf(s, r).published|
         && TopicOf(s', r).heard == TopicOf(s, r).heard + [Heard(at, TopicOf(s, r).published[at])]
         && forall q :: q != r ==> TopicOf(s', q) == TopicOf(s, q)
  {
  }

  lemma StartsAtTheEnd(s: Hub, l: nat)
    requires l !in s.subs.loops && l in Step(s, OnMain(Subscribe(l))).subs.loops
    ensures var loop := Step(s, OnMain(Subscribe(l))).subs.loops[l]; loop.cursor == |TopicOf(s, loop.room).published|
  {
  }

  /** A loop hears only what was published after it subscribed. */
  lemma HearsOnlyLater(es: seq<Event>, k: nat, m: nat, l: nat, r: nat, at: nat)
    requires k < m && Starts(es, k, l, r) && Receives(es, m, l, at)
    ensures |TopicOf(Run(es[..k]), r).published| <= at < |TopicOf(Run(es[..m]), r).published|
  {
    hide Step;
    assert es[..k + 1][..k] == es[..k] && es[..m + 1][..m] == es[..m];
    StartsAtTheEnd(Run(es[..k]), l);
    RunGoesOn(es, k + 1, m, l);
    ReceiveMoves(Run(es[..m]), l, at);
  }

  /** And no loop hears a publication twice, or an older one after a newer one. */
  lemma HearsInOrder(es: seq<Event>, m: nat, n: nat, l: nat, at: nat, later: nat)
    requires m < n && Receives(es, m, l, at) && Receives(es, n, l, later)
    ensures at < later
  {
    hide Step;
    assert es[..m + 1][..m] == es[..m] && es[..n + 1][..n] == es[..n];
    ReceiveMoves(Run(es[..m]), l, at);
    RunGoesOn(es, m + 1, n, l);
    ReceiveMoves(Run(es[..n]), l, later);
  }
}
