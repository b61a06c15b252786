/** Exactly when a registered client is sure to get what is still to come in order. */
module DeliveryExact {
  import opened Domain
  import opened Clients
  import opened HubMachine
  import opened DeliveryOrder
  import Delivery
  import Membership
  import Subscription

  /** Anything may happen but the start of another loop. */
  ghost predicate NoSubscribe(more: seq<Event>) {
    forall i :: 0 <= i < |more| ==> !(more[i].OnMain? && more[i].me.Subscribe?)
  }

  lemma LoopsOnlyNoSubscribe(more: seq<Event>)
    requires Subscription.LoopsOnly(more)
    ensures NoSubscribe(more)
  {
  }

  // ----- one live loop is enough -------------------------------------------------------

  ghost predicate Grows(s: Hub, s': Hub, c: Client) {
    c in s.net.clients ==>
      c in s'.net.clients && s.net.clients[c].entered <= s'.net.clients[c].entered
  }

  lemma ClientGrows(s: Hub, e: ClientEvent, c: Client)
    ensures Grows(s, ClientStep(s, e), c)
  {
  }

  lemma LoopGrows(s: Hub, e: LoopEvent, c: Client)
    ensures Grows(s, LoopStep(s, e), c)
  {
  }

  lemma MainGrows(s: Hub, e: MainEvent, c: Client)
    ensures Grows(s, MainStep(s, e), c)
  {
    hide AddClient, RemoveClient, IsRegistered;
  }

  lemma StepGrows(s: Hub, ev: Event, c: Client)
    ensures Grows(s, Step(s, ev), c)
  {
    hide ClientStep, LoopStep, MainStep;
    match ev
    case OnClient(e) => ClientGrows(s, e, c);
    case OnLoop(e) => LoopGrows(s, e, c);
    case OnMain(e) => MainGrows(s, e, c);
    case _ =>
  }

  lemma {:induction false} RunGrows(es: seq<Event>, more: seq<Event>, c: Client)
    requires c in Run(es).net.clients
    ensures c in Run(es + more).net.clients
    ensures Run(es).net.clients[c].entered <= Run(es + more).net.clients[c].entered
  {
    if more == [] {
      assert es + more == es;
    } else {
      var n := |more| - 1;
      RunGrows(es, more[..n], c);
      assert es + more == (es + more[..n]) + [more[n]];
      Membership.RunSnoc(es + more[..n], more[n]);
      StepGrows(Run(es + more[..n]), more[n], c);
    }
  }

  lemma {:induction false} StaysSteady(es: seq<Event>, more: seq<Event>, c: Client, n: nat)
    requires Steady(Run(es), c, n) && NoSubscribe(more)
    ensures Steady(Run(es + more), c, n)
  {
    hide Steady, Step;
    if more == [] {
      assert es + more == es;
    } else {
      var m := |more| - 1;
      var before := es + more[..m];
      StaysSteady(es, more[..m], c, n);
      assert es + more == before + [more[m]];
      Membership.RunSnoc(before, more[m]);
      if Run(before).crash.NoCrash? {
        Membership.RunKeeps(before);
        Delivery.RunContent(before);
        Delivery.RunFaithful(before, c);
        StepSteady(Run(before), more[m], c, n);
      } else {
        Crashed(Run(before), more[m]);
      }
    }
  }

  lemma Crashed(s: Hub, ev: Event)
    requires !s.crash.NoCrash?
    ensures Step(s, ev) == s
  {
  }

  // ----- two are too many -----------------------------------------------------------------

  /** No loop is ahead of its room's publications. */
  ghost predicate Behind(s: Hub) {
    forall l :: l in s.subs.loops ==> s.subs.loops[l].cursor <= |TopicOf(s, s.subs.loops[l].room).published|
  }

  lemma ReceiveBehind(s: Hub, l: nat, at: nat)
    requires Behind(s)
    ensures Behind(DoReceive(s, l, at))
  {
  }

  lemma SendToBehind(s: Hub, l: nat, c: Client)
    requires Behind(s)
    ensures Behind(DoSendTo(s, l, c))
  {
  }

  lemma SubscribeBehind(s: Hub, l: nat)
    requires Behind(s)
    ensures Behind(s.(subs := DoSubscribe(s.subs, l, Cursor(s))))
  {
  }

  /** Steps that move no cursor and unpublish nothing. */
  lemma SameBehind(s: Hub, s': Hub)
    requires Behind(s) && forall r :: |TopicOf(s, r).published| <= |TopicOf(s', r).published|
    requires forall l :: l in s'.subs.loops ==>
      l in s.subs.loops && s'.subs.loops[l].room == s.subs.loops[l].room && s'.subs.loops[l].cursor == s.subs.loops[l].cursor
    ensures Behind(s')
  {
  }

  lemma LoopBehind(s: Hub, e: LoopEvent)
    requires Behind(s)
    ensures Behind(LoopStep(s, e))
  {
    hide Behind, DoReceive, DoSendTo;
    match e
    case Receive(l, at) => ReceiveBehind(s, l, at);
    case SendTo(l, c) => SendToBehind(s, l, c);
    case _ => SameBehind(s, LoopStep(s, e));
  }

  lemma MainBehind(s: Hub, e: MainEvent)
    requires Behind(s)
    ensures Behind(MainStep(s, e))
  {
    hide Behind, AddClient, RemoveClient, IsRegistered;
    match e
    case Subscribe(l) => SubscribeBehind(s, l);
    case Process => SameBehind(s, DoProcess(s));
    case Unsubscribe => SameBehind(s, MainStep(s, e));
    case StopAll => SameBehind(s, MainStep(s, e));
  }

  lemma StepBehind(s: Hub, ev: Event)
    requires Behind(s)
    ensures Behind(Step(s, ev))
  {
    hide Behind, LoopStep, MainStep;
    match ev
    case OnLoop(e) => LoopBehind(s, e);
    case OnMain(e) => MainBehind(s, e);
    case _ => SameBehind(s, Step(s, ev));
  }

  lemma {:induction false} RunBehind(es: seq<Event>)
    ensures Behind(Run(es))
  {
    if es != [] {
      RunBehind(es[..|es| - 1]);
      StepBehind(Run(es[..|es| - 1]), es[|es| - 1]);
    }
  }

  /** A live loop comes to listening by finishing its broadcast, if it is in one. */
  lemma ComesToListen(es: seq<Event>, l: nat, r: nat) returns (more: seq<Event>)
    requires Run(es).crash.NoCrash? && LiveIn(Run(es).subs, l, r)
    ensures NoSubscribe(more) && Subscription.OnlyMoves(Run(es), Run(es + more), l)
    ensures Run(es + more).subs.loops[l].phase.Running? && Run(es + more).topics == Run(es).topics
  {
    if Run(es).subs.loops[l].phase.Sending? {
      more := Subscription.DrainLoop(es, l);
      LoopsOnlyNoSubscribe(more);
    } else {
      more := [];
      assert es + more == es;
    }
  }

  /** The client's pump takes all that waits. */
  lemma {:induction false} EmptiesBuffer(es: seq<Event>, c: Client) returns (more: seq<Event>)
    requires Run(es).crash.NoCrash? && c in Run(es).net.clients
    ensures NoSubscribe(more)
    ensures var s, t := Run(es), Run(es + more);
      && c in t.net.clients && t.net.clients[c].chan.buffer == [] && t.net.clients[c].entered == s.net.clients[c].entered
      && t.net.rooms == s.net.rooms && t.subs == s.subs && t.topics == s.topics && t.crash == s.crash
    decreases |Run(es).net.clients[c].chan.buffer|
  {
    if Run(es).net.clients[c].chan.buffer == [] {
      more := [];
      assert es + more == es;
    } else {
      var e := OnClient(Drain(c));
      Membership.RunSnoc(es, e);
      var rest := EmptiesBuffer(es + [e], c);
      more := [e] + rest;
      assert es + more == es + [e] + rest;
    }
  }

  ghost predicate IsListening(u: Subs, l: nat, r: nat) {
    l in u.loops && u.loops[l].phase.Running? && u.loops[l].room == r
  }

  lemma Listens(s: Hub, l: nat, r: nat)
    requires Behind(s) && IsListening(s.subs, l, r)
    ensures Listening(s, l, r)
  {
  }

  lemma KnownMember(es: seq<Event>, c: Client)
    requires IsRegistered(Run(es).net.rooms, c)
    ensures c in Run(es).net.clients
  {
    Membership.RunKeeps(es);
  }

  lemma BothListen(es: seq<Event>, l: nat, k: nat, c: Client) returns (more: seq<Event>)
    requires var s := Run(es);
      && s.crash.NoCrash? && IsRegistered(s.net.rooms, c)
      && l != k && LiveIn(s.subs, l, c.roomID) && LiveIn(s.subs, k, c.roomID)
    ensures NoSubscribe(more)
    ensures var t := Run(es + more);
      && t.crash.NoCrash? && c in t.net.clients && IsRegistered(t.net.rooms, c)
      && IsListening(t.subs, l, c.roomID) && IsListening(t.subs, k, c.roomID)
  {
    hide Run, Step, IsRegistered;
    var m1 := ComesToListen(es, l, c.roomID);
    var m2 := ComesToListen(es + m1, k, c.roomID);
    more := m1 + m2;
    assert es + more == es + m1 + m2;
    KnownMember(es + more, c);
  }

  /** Both loops come to listen and the client's buffer is empty. */
  lemma Prepared(es: seq<Event>, l: nat, k: nat, c: Client) returns (more: seq<Event>)
    requires var s := Run(es);
      && s.crash.NoCrash? && c in s.net.clients && IsRegistered(s.net.rooms, c)
      && l != k && LiveIn(s.subs, l, c.roomID) && LiveIn(s.subs, k, c.roomID)
    ensures NoSubscribe(more)
    ensures var t := Run(es + more);
      && t.crash.NoCrash? && c in t.net.clients && IsRegistered(t.net.rooms, c) && t.net.clients[c].chan.buffer == []
      && Listening(t, l, c.roomID) && Listening(t, k, c.roomID)
  {
    hide Run, Step, IsRegistered, IsListening, Behind, Listening;
    var m1 := BothListen(es, l, k, c);
    var m2 := EmptiesBuffer(es + m1, c);
    more := m1 + m2;
    assert es + more == es + m1 + m2;
    RunBehind(es + more);
    Listens(Run(es + more), l, c.roomID);
    Listens(Run(es + more), k, c.roomID);
  }

  /** Two live loops can bring the next publication twice. */
  lemma TwoLiveDuplicate(es: seq<Event>, l: nat, k: nat, c: Client) returns (more: seq<Event>)
    requires var s := Run(es);
      && s.crash.NoCrash? && c in s.net.clients && IsRegistered(s.net.rooms, c)
      && l != k && LiveIn(s.subs, l, c.roomID) && LiveIn(s.subs, k, c.roomID)
    ensures NoSubscribe(more) && c in Run(es + more).net.clients
    ensures !Increasing(Since(Run(es + more).net.clients[c], |Run(es).net.clients[c].entered|))
  {
    hide Run, Step, Increasing;
    var m1 := Prepared(es, l, k, c);
    var a := Action(c.roomID, c.userID + 1, "draw", DrawData(0, 0, ""), 0);
    var m2 := TwoLoopsDeliverTwice(es + m1, l, k, c, a);
    more := m1 + m2;
    assert es + more == es + m1 + m2;
    RunGrows(es, m1, c);
    EndsTwice(Run(es + m1).net.clients[c], Run(es + more).net.clients[c], |Run(es).net.clients[c].entered|);
  }

  lemma EndsTwice(st: ClientState, st': ClientState, n: nat)
    requires n <= |st.entered| && exists i: nat :: st'.entered == st.entered + [i, i]
    ensures !Increasing(Since(st', n))
  {
    var i: nat :| st'.entered == st.entered + [i, i];
    var e := Since(st', n);
    assert e[|e| - 2] == i && e[|e| - 1] == i;
  }

  /** Of everything that can still happen short of the start of another loop, nothing
      brings a registered client a publication twice or out of order, if and only if at
      most one loop of its room is live. */
  lemma InOrderExactly(es: seq<Event>, c: Client)
    requires var s := Run(es); s.crash.NoCrash? && c in s.net.clients && IsRegistered(s.net.rooms, c)
    ensures SingleLive(Run(es).subs, c.roomID) <==>
      forall more :: NoSubscribe(more) ==>
        && c in Run(es + more).net.clients
        && Increasing(Since(Run(es + more).net.clients[c], |Run(es).net.clients[c].entered|))
  {
    var n := |Run(es).net.clients[c].entered|;
    if SingleLive(Run(es).subs, c.roomID) {
      assert Since(Run(es).net.clients[c], n) == [];
      forall more | NoSubscribe(more)
        ensures c in Run(es + more).net.clients && Increasing(Since(Run(es + more).net.clients[c], n))
      {
        RunGrows(es, more, c);
        StaysSteady(es, more, c, n);
      }
    } else {
      var l, k :| LiveIn(Run(es).subs, l, c.roomID) && LiveIn(Run(es).subs, k, c.roomID) && l != k;
      var more := TwoLiveDuplicate(es, l, k, c);
      assert NoSubscribe(more);
    }
  }
}
