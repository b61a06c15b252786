/** Who is in which room, and which channels are open, in every reachable state. */
module Membership {
  import opened Domain
  import opened Clients
  import opened HubMachine

  ghost predicate RoomsOk(s: Hub) {
    forall r :: r in s.net.rooms ==>
      && s.net.rooms[r] != {}
      && forall c :: c in s.net.rooms[r] ==>
           c.roomID == r && c in s.net.clients && s.net.clients[c].chan.open && c !in s.gone
  }

  /** A registration is queued once, before any unregistration of the same client,
      and is still to come: the client is unregistered so far and its channel open. */
  ghost predicate QueueOk(s: Hub) {
    && (forall i :: 0 <= i < |s.net.queue| ==> s.net.queue[i].c in s.net.clients)
    && (forall i :: 0 <= i < |s.net.queue| && s.net.queue[i].Register? ==>
          var c := s.net.queue[i].c;
          !IsRegistered(s.net.rooms, c) && c !in s.gone && s.net.clients[c].chan.open)
    && (forall i, j :: 0 <= i < j < |s.net.queue| && s.net.queue[j].Register? && s.net.queue[i].c == s.net.queue[j].c
          ==> s.net.queue[i].FromClient?)
  }

  ghost predicate SweepOk(s: Hub) {
    && (s.sweep.stage.Pinging? ==>
          && (forall c :: c in s.sweep.stage.todo ==> c in s.net.clients)
          && (forall c :: c in s.sweep.stage.found ==> c in s.net.clients))
    && (s.sweep.stage.Queueing? ==> forall c :: c in s.sweep.stage.rest ==> c in s.net.clients)
    && (forall c :: c in s.gone ==> c in s.net.clients)
  }

  /** While a loop holds the read lock its remaining clients stay registered. */
  ghost predicate LoopsOk(s: Hub) {
    forall l :: l in s.subs.loops && s.subs.loops[l].phase.Sending? ==>
      forall c :: c in s.subs.loops[l].phase.remaining ==> c.roomID == s.subs.loops[l].room && IsRegistered(s.net.rooms, c)
  }

  ghost predicate Inv(s: Hub) {
    && RoomsOk(s) && QueueOk(s) && SweepOk(s) && LoopsOk(s)
    && (s.crash.NoCrash? || s.crash.ReplyOnClosed?)
  }

  /** Steps that leave the rooms and every channel's open flag alone, and only add
      messages about known clients, none of them a registration. */
  ghost predicate Quiet(s: Hub, s': Hub) {
    && s'.net.rooms == s.net.rooms && s'.gone == s.gone
    && s.net.clients.Keys <= s'.net.clients.Keys
    && (forall c :: c in s.net.clients ==> s'.net.clients[c].chan.open == s.net.clients[c].chan.open)
    && s.net.queue <= s'.net.queue
    && (forall i :: |s.net.queue| <= i < |s'.net.queue| ==> !s'.net.queue[i].Register? && s'.net.queue[i].c in s'.net.clients)
    && (s'.crash == s.crash || s'.crash.ReplyOnClosed?)
  }

  lemma QuietKeeps(s: Hub, s': Hub)
    requires RoomsOk(s) && QueueOk(s) && Quiet(s, s')
    ensures RoomsOk(s') && QueueOk(s')
  {
  }

  lemma SweepUnchanged(s: Hub, s': Hub)
    requires SweepOk(s) && s'.sweep == s.sweep && s.net.clients.Keys <= s'.net.clients.Keys && s'.gone == s.gone
    ensures SweepOk(s')
  {
  }

  lemma LoopsUnchanged(s: Hub, s': Hub)
    requires LoopsOk(s) && s'.subs.loops == s.subs.loops && s'.net.rooms == s.net.rooms
    ensures LoopsOk(s')
  {
  }

  lemma ConnectKeeps(s: Hub, c: Client)
    requires Inv(s)
    ensures Inv(s.(net := DoConnect(s.net, c)))
  {
    if c !in s.net.clients {
      assert forall i :: 0 <= i < |s.net.queue| ==> s.net.queue[i].c != c;
    }
  }

  lemma QuietClientKeeps(s: Hub, s': Hub)
    requires Inv(s) && Quiet(s, s') && s'.sweep == s.sweep && s'.subs.loops == s.subs.loops
    ensures Inv(s')
  {
    QuietKeeps(s, s');
    SweepUnchanged(s, s');
    LoopsUnchanged(s, s');
  }

  lemma PostKeeps(s: Hub, m: HubMessage)
    requires Inv(s) && !m.Register?
    ensures Inv(s.(net := DoPost(s.net, m)))
  {
    QuietClientKeeps(s, s.(net := DoPost(s.net, m)));
  }

  lemma ClientKeeps(s: Hub, ev: ClientEvent)
    requires Inv(s)
    ensures Inv(ClientStep(s, ev))
  {
    hide Inv, DoConnect, DoPost;
    match ev
    case Connect(c) => ConnectKeeps(s, c);
    case SendAction(c) => PostKeeps(s, FromClient(c));
    case Leave(c) => PostKeeps(s, Unregister(c, false));
    case Drain(c) => QuietClientKeeps(s, s.(net := DoDrain(s.net, c)));
    case Reply(c, p) => QuietClientKeeps(s, DoReply(s, c, p));
  }

  /** A loop's remaining clients only shrink, or are the room's current members. */
  ghost predicate Shrinks(s: Hub, s': Hub) {
    && s'.net.rooms == s.net.rooms
    && forall l :: l in s'.subs.loops && s'.subs.loops[l].phase.Sending? ==>
         || (l in s.subs.loops && s.subs.loops[l].phase.Sending? && s.subs.loops[l].room == s'.subs.loops[l].room
             && s'.subs.loops[l].phase.remaining <= s.subs.loops[l].phase.remaining)
         || (s'.subs.loops[l].room in s.net.rooms && s'.subs.loops[l].phase.remaining <= s.net.rooms[s'.subs.loops[l].room])
         || s'.subs.loops[l].phase.remaining == {}
  }

  lemma ShrinkKeeps(s: Hub, s': Hub)
    requires RoomsOk(s) && LoopsOk(s) && Shrinks(s, s')
    ensures LoopsOk(s')
  {
  }

  lemma QuietLoopKeeps(s: Hub, s': Hub)
    requires Inv(s) && Quiet(s, s') && s'.sweep == s.sweep && Shrinks(s, s')
    ensures Inv(s')
  {
    QuietKeeps(s, s');
    SweepUnchanged(s, s');
    ShrinkKeeps(s, s');
  }

  lemma SendToKeeps(s: Hub, l: nat, c: Client)
    requires Inv(s)
    ensures Inv(DoSendTo(s, l, c))
  {
    var s' := DoSendTo(s, l, c);
    if s' != s {
      assert IsRegistered(s.net.rooms, c) && s.net.clients[c].chan.open;
      QuietLoopKeeps(s, s');
    }
  }

  lemma LoopKeeps(s: Hub, ev: LoopEvent)
    requires Inv(s)
    ensures Inv(LoopStep(s, ev))
  {
    hide Inv, DoSendTo;
    match ev
    case Receive(l, at) => QuietLoopKeeps(s, DoReceive(s, l, at));
    case SendTo(l, c) => SendToKeeps(s, l, c);
    case Finish(l) => QuietLoopKeeps(s, s.(subs := DoFinish(s.subs, l)));
    case Observe(l) => QuietLoopKeeps(s, s.(subs := DoObserve(s.subs, l)));
    case Die(l) => QuietLoopKeeps(s, s.(subs := DoDie(s.subs, l)));
    case FinalDelete(l) => QuietLoopKeeps(s, s.(subs := DoFinalDelete(s.subs, l)));
  }

  lemma QuietSweepKeeps(s: Hub, s': Hub)
    requires Inv(s) && Quiet(s, s') && s'.subs.loops == s.subs.loops && SweepOk(s')
    ensures Inv(s')
  {
    QuietKeeps(s, s');
    LoopsUnchanged(s, s');
  }

  lemma SweepStepKeeps(s: Hub, ev: SweepEvent)
    requires Inv(s)
    ensures Inv(SweepStep(s, ev))
  {
    QuietSweepKeeps(s, SweepStep(s, ev));
  }

  /** No registration of this client is still queued. */
  ghost predicate Settled(s: Hub, c: Client) {
    forall i :: 0 <= i < |s.net.queue| && s.net.queue[i].Register? ==> s.net.queue[i].c != c
  }

  lemma PopKeeps(s: Hub)
    requires Inv(s) && s.net.queue != []
    ensures Inv(s.(net := s.net.(queue := s.net.queue[1..])))
    ensures !s.net.queue[0].FromClient? ==> Settled(s.(net := s.net.(queue := s.net.queue[1..])), s.net.queue[0].c)
  {
    var q := s.net.queue;
    assert forall i :: 0 <= i < |q[1..]| ==> q[1..][i] == q[i + 1];
  }

  lemma AddKeeps(s: Hub, s': Hub, c: Client)
    requires RoomsOk(s) && QueueOk(s) && c in s.net.clients && Settled(s, c)
    requires c !in s.gone && s.net.clients[c].chan.open
    requires s'.net.rooms == AddClient(s.net.rooms, c) && s'.net.queue == s.net.queue && s'.gone == s.gone
    requires s'.net.clients.Keys == s.net.clients.Keys
    requires forall d :: d in s.net.clients ==> s'.net.clients[d].chan == s.net.clients[d].chan
    ensures RoomsOk(s') && QueueOk(s')
  {
    assert forall d :: IsRegistered(s'.net.rooms, d) ==> IsRegistered(s.net.rooms, d) || d == c;
  }

  lemma RegisterKeeps(s: Hub, c: Client)
    requires Inv(s) && !Broadcasting(s.subs) && c in s.net.clients && Settled(s, c)
    requires c !in s.gone && s.net.clients[c].chan.open
    ensures Inv(DoRegister(s, c))
  {
    hide RoomsOk, QueueOk, AddClient;
    var s' := DoRegister(s, c);
    assert s'.net.clients.Keys == s.net.clients.Keys;
    assert forall d :: d in s.net.clients ==> s'.net.clients[d].chan == s.net.clients[d].chan;
    AddKeeps(s, s', c);
  }

  lemma UnregisterKeeps(s: Hub, c: Client)
    requires Inv(s) && !Broadcasting(s.subs) && c in s.net.clients && Settled(s, c)
    ensures Inv(DoUnregister(s, c))
  {
    var s' := DoUnregister(s, c);
    if IsRegistered(s.net.rooms, c) {
      assert forall r, d :: r in s'.net.rooms && d in s'.net.rooms[r] ==> r in s.net.rooms && d in s.net.rooms[r] && d != c;
    }
  }

  lemma ProcessKeeps(s: Hub)
    requires Inv(s)
    ensures Inv(DoProcess(s))
  {
    hide DoRegister, DoUnregister;
    if MayProcess(s) {
      PopKeeps(s);
      var s' := s.(net := s.net.(queue := s.net.queue[1..]));
      match s.net.queue[0]
      case Register(c) => RegisterKeeps(s', c);
      case Unregister(c, _) => UnregisterKeeps(s', c);
      case FromClient(_) =>
    }
  }

  /** Subscribing and unsubscribing start and cancel loops; none of them is sending
      to anyone it was not sending to before. */
  lemma MainKeeps(s: Hub, ev: MainEvent)
    requires Inv(s)
    ensures Inv(MainStep(s, ev))
  {
    hide Inv, DoProcess;
    match ev
    case Process => ProcessKeeps(s);
    case Subscribe(l) => QuietLoopKeeps(s, s.(subs := DoSubscribe(s.subs, l, Cursor(s))));
    case Unsubscribe => QuietLoopKeeps(s, s.(subs := DoUnsubscribe(s.subs)));
    case StopAll => QuietLoopKeeps(s, s.(subs := DoStopAll(s.subs)));
  }

  lemma StepKeeps(s: Hub, ev: Event)
    requires Inv(s)
    ensures Inv(Step(s, ev))
  {
    hide Inv, ClientStep, LoopStep, MainStep, SweepStep;
    match ev
    case OnClient(e) => ClientKeeps(s, e);
    case OnLoop(e) => LoopKeeps(s, e);
    case OnMain(e) => MainKeeps(s, e);
    case OnSweep(e) => SweepStepKeeps(s, e);
    case PublishTo(r, a) => QuietClientKeeps(s, DoPublish(s, r, a));
  }

  lemma {:induction false} RunKeeps(es: seq<Event>)
    ensures Inv(Run(es))
  {
    if es != [] {
      RunKeeps(es[..|es| - 1]);
      StepKeeps(Run(es[..|es| - 1]), es[|es| - 1]);
    }
  }

  // ----- what every run guarantees -----------------------------------------------

  /** No entry of the rooms map is empty; a client is only under its own room, with
      its channel open; and the broadcast has never sent on a closed channel. */
  lemma OnlyLiveMembers(es: seq<Event>)
    ensures var s := Run(es);
      && (forall r :: r in s.net.rooms ==> s.net.rooms[r] != {})
      && (forall r, c :: r in s.net.rooms && c in s.net.rooms[r] ==>
            c.roomID == r && c in s.net.clients && s.net.clients[c].chan.open)
      && (forall l, c :: l in s.subs.loops && s.subs.loops[l].phase.Sending? && c in s.subs.loops[l].phase.remaining ==>
            c in s.net.clients && s.net.clients[c].chan.open)
      && s.crash != BroadcastOnClosed
  {
    RunKeeps(es);
  }

  /** Nothing makes a closed channel open, a client unknown or a leaver new. */
  ghost predicate Onward(s: Hub, s': Hub, c: Client) {
    && (c in s.net.clients ==> c in s'.net.clients && (s'.net.clients[c].chan.open ==> s.net.clients[c].chan.open))
    && (c !in s.net.clients && c in s'.net.clients ==> s'.net.clients[c].chan.open)
    && s.gone <= s'.gone
  }

  lemma ClientOnward(s: Hub, e: ClientEvent, c: Client)
    ensures Onward(s, ClientStep(s, e), c)
  {
  }

  lemma LoopOnward(s: Hub, e: LoopEvent, c: Client)
    ensures Onward(s, LoopStep(s, e), c)
  {
  }

  lemma MainOnward(s: Hub, e: MainEvent, c: Client)
    ensures Onward(s, MainStep(s, e), c)
  {
  }

  lemma StepOnward(s: Hub, ev: Event, c: Client)
    ensures Onward(s, Step(s, ev), c)
  {
    hide ClientStep, LoopStep, MainStep;
    match ev
    case OnClient(e) => ClientOnward(s, e, c);
    case OnLoop(e) => LoopOnward(s, e, c);
    case OnMain(e) => MainOnward(s, e, c);
    case OnSweep(e) =>
    case PublishTo(r, a) =>
  }

  lemma {:induction false} GoneStaysGone(es: seq<Event>, more: seq<Event>, c: Client)
    requires c in Run(es).gone
    ensures !IsRegistered(Run(es + more).net.rooms, c)
    ensures c in Run(es + more).gone
  {
    RunKeeps(es + more);
    if more == [] {
      assert es + more == es;
    } else {
      var most := es + more[..|more| - 1];
      GoneStaysGone(es, more[..|more| - 1], c);
      RunKeeps(most);
      assert es + more == most + [more[|more| - 1]];
      StepOnward(Run(most), more[|more| - 1], c);
    }
  }

  predicate Open(s: Hub, c: Client) {
    c in s.net.clients && s.net.clients[c].chan.open
  }

  /** Before a client is unregistered nothing closed its channel; afterwards at most
      one unregistration got at it, and it is closed if that one closed it. */
  ghost predicate OnceOk(s: Hub, c: Client) {
    c in s.net.clients ==>
      var st := s.net.clients[c];
      && st.retired <= 1 && st.closes <= st.retired && (st.closes == 1 <==> !st.chan.open)
      && (c !in s.gone ==> st.retired == 0)
  }

  /** Steps that leave a client's record of closes and its open flag alone. */
  ghost predicate Unretired(s: Hub, s': Hub, c: Client) {
    && (c in s'.net.clients && c in s.net.clients ==>
          var st, st' := s.net.clients[c], s'.net.clients[c];
          st'.retired == st.retired && st'.closes == st.closes && st'.chan.open == st.chan.open)
    && (c in s'.net.clients && c !in s.net.clients ==>
          var st' := s'.net.clients[c];
          st'.retired == 0 && st'.closes == 0 && st'.chan.open)
    && s.gone <= s'.gone
  }

  lemma ClientUnretired(s: Hub, e: ClientEvent, c: Client)
    ensures Unretired(s, ClientStep(s, e), c)
  {
  }

  lemma LoopUnretired(s: Hub, e: LoopEvent, c: Client)
    ensures Unretired(s, LoopStep(s, e), c)
  {
  }

  lemma OtherUnretired(s: Hub, ev: Event, c: Client)
    requires !ev.OnClient? && !ev.OnLoop? && !(ev.OnMain? && ev.me.Process?)
    ensures Unretired(s, Step(s, ev), c)
  {
  }

  /** The unregistration of a member finds a channel nobody closed. */
  lemma ProcessOnce(s: Hub, c: Client)
    requires Inv(s) && OnceOk(s, c)
    ensures OnceOk(DoProcess(s), c)
    ensures c in s.net.clients && DoProcess(s).net.clients[c].retired != s.net.clients[c].retired ==>
              Open(s, c) && c !in s.gone && c in DoProcess(s).gone
  {
    hide AddClient, RemoveClient, QueueOk, SweepOk, LoopsOk;
    assert IsRegistered(s.net.rooms, c) ==> Open(s, c) && c !in s.gone;
  }

  lemma StepOnce(s: Hub, ev: Event, c: Client)
    requires Inv(s) && OnceOk(s, c)
    ensures OnceOk(Step(s, ev), c)
    ensures c in s.net.clients ==>
      && c in Step(s, ev).net.clients
      && (Step(s, ev).net.clients[c].retired != s.net.clients[c].retired ==>
            Open(s, c) && ev == OnMain(Process) && c in Step(s, ev).gone)
  {
    hide Inv, ClientStep, LoopStep, DoProcess;
    StepOnward(s, ev, c);
    match ev
    case OnClient(e) => ClientUnretired(s, e, c);
    case OnLoop(e) => LoopUnretired(s, e, c);
    case OnMain(Process) => ProcessOnce(s, c);
    case _ => OtherUnretired(s, ev, c);
  }

  lemma {:induction false} RunOnce(es: seq<Event>, c: Client)
    ensures OnceOk(Run(es), c)
  {
    if es != [] {
      RunOnce(es[..|es| - 1], c);
      RunKeeps(es[..|es| - 1]);
      StepOnce(Run(es[..|es| - 1]), es[|es| - 1], c);
    }
  }

  /** However many unregistrations a client gets, in a whole run one at most reaches its
      channel, so the channel is closed at most once, and it is closed exactly when that
      one closed it. */
  lemma ClosedOnce(es: seq<Event>, c: Client)
    requires c in Run(es).net.clients
    ensures var st := Run(es).net.clients[c]; st.closes <= st.retired <= 1 && (st.closes == 1 <==> !st.chan.open)
  {
    RunOnce(es, c);
  }

  /** And that one finds the channel open, so the receive it tries first never answers
      because the channel is closed already. */
  lemma RetiringFindsOpen(es: seq<Event>, ev: Event, c: Client)
    requires c in Run(es).net.clients
    ensures c in Run(es + [ev]).net.clients
    ensures Run(es + [ev]).net.clients[c].retired != Run(es).net.clients[c].retired ==>
              Open(Run(es), c) && ev == OnMain(Process) && c in Run(es + [ev]).gone
  {
    RunKeeps(es);
    RunOnce(es, c);
    RunSnoc(es, ev);
    StepOnce(Run(es), ev, c);
  }

  /** Unregistering a member closes its channel if and only if the buffer was empty;
      otherwise the oldest queued message is lost and the channel stays open. */
  lemma UnregisterClosesIffEmpty(s: Hub, c: Client)
    requires Inv(s) && c in s.net.clients && IsRegistered(s.net.rooms, c)
    ensures var before, after := s.net.clients[c].chan, DoUnregister(s, c).net.clients[c].chan;
      && (!after.open <==> before.buffer == [])
      && (before.buffer != [] ==> before.buffer == [before.buffer[0]] + after.buffer)
  {
  }

  lemma GoneOpenStays(s: Hub, ev: Event, c: Client)
    requires Inv(s) && c in s.gone && Open(s, c)
    ensures Open(Step(s, ev), c)
  {
    hide AddClient, RemoveClient;
    assert !IsRegistered(s.net.rooms, c);
  }

  /** And then it stays open for good: no later unregistration finds the client, so
      its write pump is never told to stop. */
  lemma {:induction false} LeftOpenStaysOpen(es: seq<Event>, more: seq<Event>, c: Client)
    requires c in Run(es).gone && Open(Run(es), c)
    ensures c in Run(es + more).gone && Open(Run(es + more), c)
  {
    if more == [] {
      assert es + more == es;
    } else {
      var most := es + more[..|more| - 1];
      LeftOpenStaysOpen(es, more[..|more| - 1], c);
      RunKeeps(most);
      assert es + more == most + [more[|more| - 1]];
      RunSnoc(most, more[|more| - 1]);
      GoneOpenStays(Run(most), more[|more| - 1], c);
      StepOnward(Run(most), more[|more| - 1], c);
    }
  }

  lemma {:induction false} ClosedStaysClosed(es: seq<Event>, more: seq<Event>, c: Client)
    requires c in Run(es).net.clients && !Open(Run(es), c)
    ensures c in Run(es + more).net.clients && !Open(Run(es + more), c)
  {
    if more == [] {
      assert es + more == es;
    } else {
      var most := es + more[..|more| - 1];
      ClosedStaysClosed(es, more[..|more| - 1], c);
      assert es + more == most + [more[|more| - 1]];
      RunSnoc(most, more[|more| - 1]);
      StepOnward(Run(most), more[|more| - 1], c);
    }
  }

  lemma RetiringCloses(s: Hub, c: Client)
    requires Inv(s) && c in s.net.clients && c in DoProcess(s).net.clients
    requires DoProcess(s).net.clients[c].retired != s.net.clients[c].retired
    ensures c in DoProcess(s).gone && (Open(DoProcess(s), c) <==> s.net.clients[c].chan.buffer != [])
  {
    hide AddClient, RemoveClient, IsRegistered;
    var s' := s.(net := s.net.(queue := s.net.queue[1..]));
    PopKeeps(s);
    assert s.net.queue[0].Unregister? && s.net.queue[0].c == c && IsRegistered(s.net.rooms, c);
    UnregisterClosesIffEmpty(s', c);
  }

  /** The unregistration that reaches a client's channel decides for good: the channel is
      open ever after if and only if a message was waiting in it at that moment. */
  lemma LeavingDecides(es: seq<Event>, ev: Event, more: seq<Event>, c: Client)
    requires c in Run(es).net.clients && c in Run(es + [ev]).net.clients
    requires Run(es + [ev]).net.clients[c].retired != Run(es).net.clients[c].retired
    ensures c in Run(es + [ev] + more).net.clients
    ensures Open(Run(es + [ev] + more), c) <==> Run(es).net.clients[c].chan.buffer != []
  {
    RunKeeps(es);
    RetiringFindsOpen(es, ev, c);
    RunSnoc(es, ev);
    assert Run(es + [ev]) == DoProcess(Run(es));
    RetiringCloses(Run(es), c);
    if Open(Run(es + [ev]), c) {
      LeftOpenStaysOpen(es + [ev], more, c);
    } else {
      ClosedStaysClosed(es + [ev], more, c);
    }
  }

  /** An initial snapshot or an error text arrives after the channel was closed. */
  predicate LateReply(s: Hub, ev: Event) {
    && ev.OnClient? && ev.ce.Reply? && !ev.ce.p.ActionMsg?
    && ev.ce.c in s.net.clients && !s.net.clients[ev.ce.c].chan.open
  }

  /** A broadcast is about to send on a closed channel. */
  predicate LateBroadcast(s: Hub, ev: Event) {
    && ev.OnLoop? && ev.le.SendTo? && MaySend(s, ev.le.l, ev.le.c) && !s.net.clients[ev.le.c].chan.open
  }

  /** In any state of the hub, reachable or not, the panics on the clients' channels are the
      sends on a closed one. */
  lemma PanicsExactlyOnClosed(s: Hub, ev: Event)
    requires s.crash.NoCrash?
    ensures !Step(s, ev).crash.NoCrash? <==> LateReply(s, ev) || LateBroadcast(s, ev)
  {
    hide AddClient, RemoveClient, IsRegistered;
  }

  /** Of all operations on the clients' channels, only the unlocked replies can panic. */
  lemma PanicsExactlyOnLateReply(es: seq<Event>, ev: Event)
    requires Run(es).crash.NoCrash?
    ensures !Run(es + [ev]).crash.NoCrash? <==> LateReply(Run(es), ev)
  {
    RunKeeps(es + [ev]);
    assert (es + [ev])[..|es|] == es;
    assert Run(es + [ev]) == Step(Run(es), ev);
    if LateReply(Run(es), ev) {
    } else {
      QuietCrash(Run(es), ev);
    }
  }

  lemma QuietCrash(s: Hub, ev: Event)
    requires s.crash.NoCrash? && !LateReply(s, ev)
    ensures !Step(s, ev).crash.ReplyOnClosed?
  {
  }

  lemma RunSnoc(es: seq<Event>, ev: Event)
    ensures Run(es + [ev]) == Step(Run(es), ev)
  {
    assert (es + [ev])[..|es|] == es;
  }

  /** A first client joins, and its room gets a subscriber. */
  lemma Joined(c: Client) returns (es: seq<Event>)
    ensures var s := Run(es);
      && s.net.rooms == map[c.roomID := {c}] && s.net.clients == map[c := ClientState(FRESH, [], [], [], 0, 0, 0)]
      && s.net.queue == [] && s.subs.loops == map[0 := Loop(c.roomID, false, 0, Running)]
      && s.subs.entries == map[c.roomID := 0] && s.subs.unclean == {} && s.subs.pc == Idle
      && s.crash == NoCrash && s.topics == map[] && s.sweep == INIT.sweep && s.gone == {}
  {
    RunSnoc([], OnClient(Connect(c)));
    es := [] + [OnClient(Connect(c))];
    assert Run(es).net.queue == [Register(c)];
    RunSnoc(es, OnMain(Process));
    es := es + [OnMain(Process)];
    assert Run(es).net.rooms == map[c.roomID := {c}];
    RunSnoc(es, OnMain(Subscribe(0)));
    es := es + [OnMain(Subscribe(0))];
  }

  /** It can: a client that leaves before its initial snapshot was fetched. */
  lemma LateReplyHappens(c: Client, snap: Snapshot) returns (es: seq<Event>)
    ensures Run(es).crash == ReplyOnClosed
  {
    es := Joined(c);
    var s := Run(es);
    var left := Step(s, OnClient(Leave(c)));
    assert left.net.queue == [Unregister(c, false)];
    var closed := Step(left, OnMain(Process));
    RunSnoc(es, OnClient(Leave(c)));
    RunSnoc(es + [OnClient(Leave(c))], OnMain(Process));
    RunSnoc(es + [OnClient(Leave(c))] + [OnMain(Process)], OnClient(Reply(c, SnapshotMsg(snap))));
    es := es + [OnClient(Leave(c))] + [OnMain(Process)] + [OnClient(Reply(c, SnapshotMsg(snap)))];
  }

  /** And a client that leaves with its snapshot still queued keeps an open channel. */
  lemma LeftOpenHappens(c: Client, snap: Snapshot) returns (es: seq<Event>)
    ensures var s := Run(es); c in s.gone && !IsRegistered(s.net.rooms, c) && Open(s, c)
  {
    es := Joined(c);
    var reply, leave := OnClient(Reply(c, SnapshotMsg(snap))), OnClient(Leave(c));
    LeavesOpen(Run(es), c, SnapshotMsg(snap));
    RunSnoc(es, reply);
    RunSnoc(es + [reply], leave);
    RunSnoc(es + [reply] + [leave], OnMain(Process));
    es := es + [reply] + [leave] + [OnMain(Process)];
  }

  lemma LeavesOpen(s: Hub, c: Client, p: Payload)
    requires s.crash.NoCrash? && s.net.rooms == map[c.roomID := {c}] && c in s.net.clients
    requires s.net.clients[c].chan == FRESH && s.net.queue == [] && s.subs.pc.Idle? && !Broadcasting(s.subs)
    requires !p.ActionMsg?
    ensures var s' := Step(Step(Step(s, OnClient(Reply(c, p))), OnClient(Leave(c))), OnMain(Process));
      c in s'.gone && !IsRegistered(s'.net.rooms, c) && Open(s', c)
  {
    hide ClientStep;
    var s1 := ClientStep(s, Reply(c, p));
    Replied(s, c, p);
    var s2 := ClientStep(s1, Leave(c));
    Left(s1, c);
  }

  lemma Replied(s: Hub, c: Client, p: Payload)
    requires c in s.net.clients && s.net.clients[c].chan == FRESH && !p.ActionMsg?
    ensures var s' := ClientStep(s, Reply(c, p));
      && c in s'.net.clients && s'.net.clients[c].chan == Chan([p], true) && s'.net.rooms == s.net.rooms
      && s'.net.queue == s.net.queue && s'.subs == s.subs && s'.crash == s.crash
  {
  }

  lemma Left(s: Hub, c: Client)
    requires c in s.net.clients && s.net.queue == []
    ensures ClientStep(s, Leave(c)) == s.(net := s.net.(queue := [Unregister(c, false)]))
  {
  }
}
