/** With one live loop per room, what enters a client's channel is a subsequence of its
    room's publications: none twice, none out of order. */
module DeliveryOrder {
  import opened Domain
  import opened Clients
  import opened HubMachine
  import Subscription
  import opened DeliveryCount
  import Delivery
  import Membership

  ghost predicate Increasing(e: seq<nat>) {
    forall i, j :: 0 <= i < j < |e| ==> e[i] < e[j]
  }

  predicate LiveIn(u: Subs, l: nat, r: nat) {
    l in u.loops && u.loops[l].Live() && u.loops[l].room == r
  }

  /** At most one loop of the room is live. */
  ghost predicate SingleLive(u: Subs, r: nat) {
    forall l, k :: LiveIn(u, l, r) && LiveIn(u, k, r) ==> l == k
  }

  /** The first publication this loop may yet bring to this client. */
  function Next(u: Subs, l: nat, c: Client): nat
    requires l in u.loops
  {
    if Facing(u, l, c) then u.loops[l].phase.at else u.loops[l].cursor
  }

  /** What entered the client's buffer after the first `n`. */
  function Since(st: ClientState, n: nat): seq<nat> {
    if n <= |st.entered| then st.entered[n..] else []
  }

  ghost predicate AllBelow(e: seq<nat>, n: nat) {
    forall i :: i in e ==> i < n
  }

  ghost predicate OrderedFrom(s: Hub, c: Client, n: nat) {
    c in s.net.clients ==>
      var e := Since(s.net.clients[c], n);
      && Increasing(e)
      && (forall i :: i in e ==> i < |TopicOf(s, c.roomID).published|)
      && (IsRegistered(s.net.rooms, c) ==> forall l :: LiveIn(s.subs, l, c.roomID) ==> AllBelow(e, Next(s.subs, l, c)))
  }

  /** One live loop, which is past everything the client got after the first `n`. */
  ghost predicate Steady(s: Hub, c: Client, n: nat) {
    SingleLive(s.subs, c.roomID) && OrderedFrom(s, c, n)
  }

  ghost predicate InOrder(s: Hub, c: Client) {
    c.roomID !in s.subs.contended ==> Steady(s, c, 0)
  }

  /** Steps that add nothing to the client's log and start or rewind no loop. */
  ghost predicate Forward(s: Hub, s': Hub, c: Client) {
    && (c in s'.net.clients && s'.net.clients[c].entered != [] ==>
          c in s.net.clients && s'.net.clients[c].entered == s.net.clients[c].entered
          && (IsRegistered(s'.net.rooms, c) ==> IsRegistered(s.net.rooms, c)))
    && |TopicOf(s, c.roomID).published| <= |TopicOf(s', c.roomID).published|
    && Onward(s.subs, s'.subs, c)
  }

  ghost predicate Onward(u: Subs, u': Subs, c: Client) {
    && u.contended <= u'.contended
    && forall l :: LiveIn(u', l, c.roomID) ==> LiveIn(u, l, c.roomID) && Next(u, l, c) <= Next(u', l, c)
  }

  lemma ForwardKeeps(s: Hub, s': Hub, c: Client, n: nat)
    requires Steady(s, c, n) && Forward(s, s', c)
    ensures Steady(s', c, n)
  {
    if c in s'.net.clients {
      var e := Since(s'.net.clients[c], n);
      if e != [] && IsRegistered(s'.net.rooms, c) {
        forall l | LiveIn(s'.subs, l, c.roomID) ensures AllBelow(e, Next(s'.subs, l, c)) {
          assert AllBelow(e, Next(s.subs, l, c));
        }
      }
    }
  }

  lemma ReceiveForward(s: Hub, l: nat, at: nat, c: Client)
    ensures Forward(s, DoReceive(s, l, at), c)
  {
    var s' := DoReceive(s, l, at);
    if s' != s {
      assert Next(s.subs, l, c) <= Next(s'.subs, l, c);
      assert forall k :: k in s.subs.loops && k != l ==> s'.subs.loops[k] == s.subs.loops[k];
    }
  }

  lemma Extended(e: seq<nat>, at: nat)
    requires Increasing(e) && AllBelow(e, at)
    ensures Increasing(e + [at]) && AllBelow(e + [at], at + 1)
  {
    assert forall i :: 0 <= i < |e| ==> e[i] in e;
  }

  lemma SinceExtended(st: ClientState, at: nat, n: nat)
    ensures var st' := st.(entered := st.entered + [at]);
      Since(st', n) == if n <= |st.entered| then Since(st, n) + [at] else []
  {
  }

  lemma SendToKeeps(s: Hub, l: nat, d: Client, c: Client, n: nat)
    requires Steady(s, c, n) && Membership.RoomsOk(s) && Membership.LoopsOk(s) && Delivery.Content(s)
    ensures Steady(DoSendTo(s, l, d), c, n)
  {
    hide Increasing, Since;
    var s' := DoSendTo(s, l, d);
    if MaySend(s, l, d) {
      assert IsRegistered(s.net.rooms, d) && d.roomID == s.subs.loops[l].room && s.net.clients[d].chan.open;
      assert Delivery.LoopOk(s, l);
      if c == d {
        var at := s.subs.loops[l].phase.at;
        assert LiveIn(s.subs, l, c.roomID) && Next(s.subs, l, c) == at;
        assert forall k :: LiveIn(s'.subs, k, c.roomID) ==> LiveIn(s.subs, k, c.roomID);
        Extended(Since(s.net.clients[c], n), at);
        SinceExtended(s.net.clients[c], at, n);
        SinceSame(s.net.clients[c], s'.net.clients[c], n);
        EmptyInOrder();
      } else {
        ForwardKeeps(s, s', c, n);
      }
    }
  }

  lemma SinceSame(st: ClientState, st': ClientState, n: nat)
    ensures st'.entered == st.entered ==> Since(st', n) == Since(st, n)
    ensures forall at :: st'.entered == st.entered + [at] ==> Since(st', n) == Since(st.(entered := st.entered + [at]), n)
  {
  }

  lemma EmptyInOrder()
    ensures Increasing([])
  {
  }

  lemma SubscribeKeeps(s: Hub, l: nat, c: Client)
    requires InOrder(s, c)
    ensures InOrder(s.(subs := DoSubscribe(s.subs, l, Cursor(s))), c)
  {
    hide Increasing, Since;
    var s' := s.(subs := DoSubscribe(s.subs, l, Cursor(s)));
    if c.roomID !in s'.subs.contended {
      if s.subs.pc.Starting? && s.subs.pc.room == c.roomID && l !in s.subs.loops && c.roomID !in s.subs.entries {
        assert forall k :: LiveIn(s'.subs, k, c.roomID) ==> k == l;
      } else {
        assert forall k :: LiveIn(s'.subs, k, c.roomID) ==> LiveIn(s.subs, k, c.roomID);
        ForwardKeeps(s, s', c, 0);
      }
    }
  }

  lemma PhaseOnward(u: Subs, k: nat, c: Client)
    ensures Onward(u, DoFinish(u, k), c) && Onward(u, DoObserve(u, k), c)
    ensures Onward(u, DoDie(u, k), c) && Onward(u, DoFinalDelete(u, k), c)
  {
  }

  lemma MainOnward(u: Subs, c: Client)
    ensures Onward(u, DoUnsubscribe(u), c) && Onward(u, DoStopAll(u), c)
  {
  }

  lemma ProcessForward(s: Hub, c: Client)
    requires Membership.Inv(s) && Delivery.Faithful(s, c)
    ensures Forward(s, DoProcess(s), c)
  {
    hide AddClient, RemoveClient, Membership.Inv;
    var s' := DoProcess(s);
    Delivery.ProcessUntouched(s, c);
    if !Delivery.Untouched(s, s', c) {
      if s.net.queue[0].Unregister? {
        Removed(s.net.rooms, c);
      } else {
        HeadIsNew(s);
      }
    }
  }

  lemma ClientForward(s: Hub, ev: ClientEvent, c: Client)
    ensures Forward(s, ClientStep(s, ev), c)
  {
  }

  lemma OtherForward(s: Hub, ev: Event, c: Client)
    requires !ev.OnClient? && (ev.OnLoop? ==> !ev.le.Receive? && !ev.le.SendTo?)
    requires ev.OnMain? ==> ev.me.Unsubscribe? || ev.me.StopAll?
    ensures Forward(s, Step(s, ev), c)
  {
    hide Onward, DoFinish, DoObserve, DoDie, DoFinalDelete, DoUnsubscribe, DoStopAll;
    PhaseOnward(s.subs, if ev.OnLoop? then ev.le.l else 0, c);
    MainOnward(s.subs, c);
    assert Onward(s.subs, s.subs, c) by { OnwardItself(s.subs, c); }
  }

  lemma OnwardItself(u: Subs, c: Client)
    ensures Onward(u, u, c)
  {
  }

  /** Every step but the start of a loop. */
  lemma StepSteady(s: Hub, ev: Event, c: Client, n: nat)
    requires Steady(s, c, n) && Membership.Inv(s) && Delivery.Content(s) && Delivery.Faithful(s, c) && s.crash.NoCrash?
    requires !(ev.OnMain? && ev.me.Subscribe?)
    ensures Steady(Step(s, ev), c, n)
  {
    hide Steady, Membership.Inv, Delivery.Content, ClientStep, DoReceive, DoSendTo, DoProcess, DoUnsubscribe, DoStopAll;
    Delivery.LoopsAreOk(s);
    match ev
    case OnClient(e) => ClientForward(s, e, c); ForwardKeeps(s, Step(s, ev), c, n);
    case OnLoop(SendTo(l, d)) => SendToKeeps(s, l, d, c, n);
    case OnLoop(Receive(l, at)) => ReceiveForward(s, l, at, c); ForwardKeeps(s, Step(s, ev), c, n);
    case OnMain(Process) => ProcessForward(s, c); ForwardKeeps(s, Step(s, ev), c, n);
    case OnMain(Subscribe(l)) =>
    case OnMain(Unsubscribe) => OtherForward(s, ev, c); ForwardKeeps(s, Step(s, ev), c, n);
    case OnMain(StopAll) => OtherForward(s, ev, c); ForwardKeeps(s, Step(s, ev), c, n);
    case _ => OtherForward(s, ev, c); ForwardKeeps(s, Step(s, ev), c, n);
  }

  lemma StepKeeps(s: Hub, ev: Event, c: Client)
    requires InOrder(s, c) && Membership.Inv(s) && Delivery.Content(s) && Delivery.Faithful(s, c) && s.crash.NoCrash?
    ensures InOrder(Step(s, ev), c)
  {
    hide Steady, Membership.Inv, Delivery.Content, Delivery.Faithful;
    if ev.OnMain? && ev.me.Subscribe? {
      SubscribeKeeps(s, ev.me.l, c);
    } else if c.roomID !in Step(s, ev).subs.contended {
      ContendedGrows(s, ev);
      StepSteady(s, ev, c, 0);
    }
  }

  lemma ContendedGrows(s: Hub, ev: Event)
    ensures s.subs.contended <= Step(s, ev).subs.contended
  {
  }

  lemma {:induction false} RunKeeps(es: seq<Event>, c: Client)
    ensures InOrder(Run(es), c)
  {
    if es != [] {
      var before := es[..|es| - 1];
      RunKeeps(before, c);
      if Run(before).crash.NoCrash? {
        Membership.RunKeeps(before);
        Delivery.RunContent(before);
        Delivery.RunFaithful(before, c);
        StepKeeps(Run(before), es[|es| - 1], c);
      }
    }
  }

  lemma LessOneInOrder(got: seq<nat>, all: seq<nat>)
    requires Increasing(all) && Delivery.LessOne(got, all)
    ensures Increasing(got) && forall i :: i in got ==> i in all
  {
  }

  /** With one live loop per room throughout, the action messages that entered a client's
      buffer are a subsequence of its room's publications: none twice, none out of order.
      What it was written or still holds is all of them, or, once it was unregistered,
      all but the one message the unregistration may have taken. */
  lemma DeliveredInOrder(es: seq<Event>, c: Client)
    requires var s := Run(es); c in s.net.clients && c.roomID !in s.subs.contended
    ensures var s := Run(es);
      var entered, got := s.net.clients[c].entered, Delivery.Holds(s.net.clients[c]);
      && Increasing(entered) && (forall i :: i in entered ==> i < |TopicOf(s, c.roomID).published|)
      && Delivery.LessOne(got, entered) && (c !in s.gone ==> got == entered)
      && Increasing(got) && forall i :: i in got ==> i < |TopicOf(s, c.roomID).published|
    ensures forall l, k :: LiveIn(Run(es).subs, l, c.roomID) && LiveIn(Run(es).subs, k, c.roomID) ==> l == k
  {
    RunKeeps(es, c);
    Delivery.RunFaithful(es, c);
    Delivery.RunKept(es, c);
    assert Since(Run(es).net.clients[c], 0) == Run(es).net.clients[c].entered;
    LessOneInOrder(Delivery.Holds(Run(es).net.clients[c]), Run(es).net.clients[c].entered);
  }

  // ----- two live loops ----------------------------------------------------------

  /** This loop may receive publication `at` and then offer it to this client. */
  ghost predicate CanBring(s: Hub, l: nat, at: nat, c: Client) {
    && s.crash.NoCrash? && c in s.net.clients && IsRegistered(s.net.rooms, c) && s.net.clients[c].chan.open
    && !Full(s.net.clients[c].chan)
    && l in s.subs.loops && s.subs.loops[l].phase.Running? && s.subs.loops[l].room == c.roomID
    && s.subs.loops[l].cursor <= at < |TopicOf(s, c.roomID).published|
    && TopicOf(s, c.roomID).published[at].userID != c.userID
  }

  lemma Brings(s: Hub, l: nat, at: nat, c: Client)
    requires CanBring(s, l, at, c)
    ensures var s' := Step(Step(s, OnLoop(Receive(l, at))), OnLoop(SendTo(l, c)));
      && s'.crash.NoCrash? && s'.net.rooms == s.net.rooms && c in s'.net.clients && s'.net.clients[c].chan.open
      && s'.net.clients[c].entered == s.net.clients[c].entered + [at]
      && |s'.net.clients[c].chan.buffer| == |s.net.clients[c].chan.buffer| + 1
      && TopicOf(s', c.roomID).published == TopicOf(s, c.roomID).published
      && forall k :: k in s.subs.loops && k != l ==> k in s'.subs.loops && s'.subs.loops[k] == s.subs.loops[k]
  {
    hide Increasing;
    var s1 := Step(s, OnLoop(Receive(l, at)));
    assert s1.subs.loops[l].phase.Sending? && c in s1.subs.loops[l].phase.remaining;
    assert TopicOf(s1, c.roomID).published == TopicOf(s, c.roomID).published;
    assert MaySend(s1, l, c);
  }

  /** This loop will receive the room's next publication. */
  predicate Listening(s: Hub, l: nat, r: nat) {
    && l in s.subs.loops && s.subs.loops[l].phase.Running? && s.subs.loops[l].room == r
    && s.subs.loops[l].cursor <= |TopicOf(s, r).published|
  }

  /** A stopped loop that still lives beside its successor makes a client get the next
      publication twice. */
  lemma TwoLoopsDeliverTwice(es: seq<Event>, l: nat, k: nat, c: Client, a: Action) returns (more: seq<Event>)
    requires var s := Run(es);
      && s.crash.NoCrash? && l != k && a.userID != c.userID
      && c in s.net.clients && IsRegistered(s.net.rooms, c) && |s.net.clients[c].chan.buffer| + 2 <= 256
      && Listening(s, l, c.roomID) && Listening(s, k, c.roomID)
    ensures var s, t, n := Run(es), Run(es + more), |TopicOf(Run(es), c.roomID).published|;
      c in t.net.clients && t.net.clients[c].entered == s.net.clients[c].entered + [n, n]
    ensures forall i :: 0 <= i < |more| ==> !more[i].OnMain?
  {
    hide CanBring, Step;
    Membership.RunKeeps(es);
    var s, n := Run(es), |TopicOf(Run(es), c.roomID).published|;
    var p := PublishTo(c.roomID, a);
    var s0 := Step(s, p);
    Membership.RunSnoc(es, p);
    var es0 := es + [p];
    Ready(s, l, c, a);
    Ready(s, k, c, a);
    Brings(s0, l, n, c);
    Membership.RunSnoc(es0, OnLoop(Receive(l, n)));
    Membership.RunSnoc(es0 + [OnLoop(Receive(l, n))], OnLoop(SendTo(l, c)));
    var es1 := es0 + [OnLoop(Receive(l, n))] + [OnLoop(SendTo(l, c))];
    var s1 := Run(es1);
    StillReady(s0, s1, k, n, c);
    Brings(s1, k, n, c);
    Membership.RunSnoc(es1, OnLoop(Receive(k, n)));
    Membership.RunSnoc(es1 + [OnLoop(Receive(k, n))], OnLoop(SendTo(k, c)));
    more := [p, OnLoop(Receive(l, n)), OnLoop(SendTo(l, c)), OnLoop(Receive(k, n)), OnLoop(SendTo(k, c))];
    assert es + more == es1 + [OnLoop(Receive(k, n))] + [OnLoop(SendTo(k, c))];
    var e := s.net.clients[c].entered;
    assert (e + [n]) + [n] == e + [n, n];
  }

  lemma Ready(s: Hub, l: nat, c: Client, a: Action)
    requires Membership.RoomsOk(s) && s.crash.NoCrash? && a.userID != c.userID
    requires c in s.net.clients && IsRegistered(s.net.rooms, c) && !Full(s.net.clients[c].chan)
    requires Listening(s, l, c.roomID)
    ensures CanBring(Step(s, PublishTo(c.roomID, a)), l, |TopicOf(s, c.roomID).published|, c)
    ensures Step(s, PublishTo(c.roomID, a)).net == s.net && Step(s, PublishTo(c.roomID, a)).subs == s.subs
  {
  }

  lemma StillReady(s: Hub, s': Hub, k: nat, n: nat, c: Client)
    requires CanBring(s, k, n, c) && s'.crash.NoCrash? && s'.net.rooms == s.net.rooms
    requires c in s'.net.clients && s'.net.clients[c].chan.open && !Full(s'.net.clients[c].chan)
    requires TopicOf(s', c.roomID).published == TopicOf(s, c.roomID).published
    requires k in s'.subs.loops && s'.subs.loops[k] == s.subs.loops[k]
    ensures CanBring(s', k, n, c)
  {
  }

  /** It happens: when the second client of an otherwise empty room joins before the first
      one's loop noticed its cancellation, it gets the first publication twice. */
  lemma TwoLoopsHappen(c: Client, d: Client, a: Action) returns (es: seq<Event>)
    requires c != d && c.roomID == d.roomID && a.userID != d.userID
    ensures var s := Run(es); d in s.net.clients && s.net.clients[d].entered == [0, 0]
  {
    es := Subscription.EarlyReopening(c, d);
    var s := Run(es);
    Subscription.RunKeeps(es);
    assert d.roomID !in s.subs.entries;
    Membership.RunSnoc(es, OnMain(Subscribe(1)));
    es := es + [OnMain(Subscribe(1))];
    var t := Run(es);
    assert t.net == s.net && t.topics == s.topics && t.crash == s.crash;
    assert t.subs.loops == s.subs.loops[1 := Loop(d.roomID, false, 0, Running)];
    var more := TwoLoopsDeliverTwice(es, 0, 1, d, a);
    es := es + more;
  }
}
