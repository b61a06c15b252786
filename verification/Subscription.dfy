/** Which rooms are subscribed, and by which subscriber loop, in every run. */
module Subscription {
  import opened Clients
  import opened HubMachine
  import Delivery
  import Membership

  /** Every entry's cancel belongs to a started, uncancelled loop of that room that
      has not done its final delete. */
  ghost predicate EntriesOk(u: Subs) {
    forall r :: r in u.entries ==>
      var l := u.entries[r];
      l in u.loops && u.loops[l].room == r && !u.loops[l].cancelled && !u.loops[l].phase.Dead?
  }

  /** The rooms that should be subscribed: while the message loop is between the
      rooms map and the subscriptions map, the two differ by one room. */
  ghost function Expected(s: Hub): set<nat> {
    match s.subs.pc
    case Idle => s.net.rooms.Keys
    case Starting(r) => s.net.rooms.Keys - {r}
    case Stopping(r) => s.net.rooms.Keys + {r}
  }

  ghost predicate Placed(s: Hub) {
    && s.subs.entries.Keys <= Expected(s)
    && (s.subs.pc.Starting? ==> s.subs.pc.room in s.net.rooms)
    && (s.subs.pc.Stopping? ==> s.subs.pc.room !in s.net.rooms)
  }

  /** In a clean room an expected entry is there, every uncancelled loop is the entry's,
      and while there is an entry the other loops are dead. */
  ghost predicate Exact(s: Hub, r: nat) {
    && (r in Expected(s) ==> r in s.subs.entries)
    && (forall l :: l in s.subs.loops && s.subs.loops[l].room == r && !s.subs.loops[l].cancelled ==>
          s.subs.loops[l].Live() && r in s.subs.entries)
    && (r in s.subs.entries ==>
          forall l :: l in s.subs.loops && s.subs.loops[l].room == r && !s.subs.loops[l].phase.Dead? ==>
            s.subs.entries[r] == l)
  }

  ghost predicate Inv(s: Hub) {
    EntriesOk(s.subs) && Placed(s) && forall r :: r !in s.subs.unclean ==> Exact(s, r)
  }

  /** Steps that only move loops between running, sending and, once cancelled, exiting. */
  ghost predicate Alike(s: Hub, s': Hub) {
    && s'.net.rooms == s.net.rooms && s'.subs.entries == s.subs.entries && s'.subs.pc == s.subs.pc
    && s.subs.unclean <= s'.subs.unclean && s'.subs.loops.Keys == s.subs.loops.Keys
    && forall l :: l in s.subs.loops ==>
         && s'.subs.loops[l].room == s.subs.loops[l].room && s'.subs.loops[l].cancelled == s.subs.loops[l].cancelled
         && (s'.subs.loops[l].phase.Dead? <==> s.subs.loops[l].phase.Dead?)
         && (s.subs.loops[l].room !in s'.subs.unclean && s.subs.loops[l].Live() && !s.subs.loops[l].cancelled ==>
               s'.subs.loops[l].Live())
  }

  lemma AlikeKeeps(s: Hub, s': Hub)
    requires Inv(s) && Alike(s, s')
    ensures Inv(s')
  {
    forall r | r !in s'.subs.unclean ensures Exact(s', r) {
      assert Exact(s, r);
    }
  }

  lemma FinalDeleteKeeps(s: Hub, l: nat)
    requires Inv(s)
    ensures Inv(s.(subs := DoFinalDelete(s.subs, l)))
  {
  }

  lemma ReceiveAlike(s: Hub, l: nat, at: nat)
    ensures Alike(s, DoReceive(s, l, at))
  {
  }

  lemma SendToAlike(s: Hub, l: nat, c: Client)
    ensures Alike(s, DoSendTo(s, l, c))
  {
  }

  lemma PhaseAlike(s: Hub, ev: LoopEvent)
    requires ev.Finish? || ev.Observe? || ev.Die?
    ensures Alike(s, LoopStep(s, ev))
  {
  }

  lemma LoopKeeps(s: Hub, ev: LoopEvent)
    requires Inv(s)
    ensures Inv(LoopStep(s, ev))
  {
    hide Inv, Alike, DoFinalDelete, DoReceive, DoSendTo, DoFinish, DoObserve, DoDie;
    match ev
    case FinalDelete(l) => FinalDeleteKeeps(s, l);
    case Receive(l, at) => ReceiveAlike(s, l, at); AlikeKeeps(s, LoopStep(s, ev));
    case SendTo(l, c) => SendToAlike(s, l, c); AlikeKeeps(s, LoopStep(s, ev));
    case Finish(l) => PhaseAlike(s, ev); AlikeKeeps(s, LoopStep(s, ev));
    case Observe(l) => PhaseAlike(s, ev); AlikeKeeps(s, LoopStep(s, ev));
    case Die(l) => PhaseAlike(s, ev); AlikeKeeps(s, LoopStep(s, ev));
  }

  /** The room of a first client has no entry yet, so its loop is always started. */
  lemma SubscribeKeeps(s: Hub, l: nat, cursor: nat)
    requires Inv(s)
    ensures Inv(s.(subs := DoSubscribe(s.subs, l, cursor)))
  {
  }

  lemma UnsubscribeKeeps(s: Hub)
    requires Inv(s)
    ensures Inv(s.(subs := DoUnsubscribe(s.subs)))
  {
  }

  lemma {:induction false} Fewer<T>(a: set<T>, b: set<T>)
    requires a <= b
    ensures |a| <= |b|
  {
    if a != {} {
      var x :| x in a;
      Fewer(a - {x}, b - {x});
    }
  }

  /** The first-client test is right because no room entry is ever empty. */
  lemma FirstExactlyInNewRoom(rooms: map<nat, set<Client>>, c: Client)
    requires !IsRegistered(rooms, c) && (c.roomID in rooms ==> rooms[c.roomID] != {})
    ensures |AddClient(rooms, c)[c.roomID]| == 1 <==> c.roomID !in rooms
    ensures AddClient(rooms, c).Keys == rooms.Keys + {c.roomID}
  {
    if c.roomID in rooms {
      var d :| d in rooms[c.roomID];
      Fewer({c, d}, AddClient(rooms, c)[c.roomID]);
    } else {
      assert AddClient(rooms, c)[c.roomID] == {c};
    }
  }

  lemma RegisterKeeps(s: Hub, c: Client)
    requires Inv(s) && s.subs.pc.Idle? && c in s.net.clients
    requires !IsRegistered(s.net.rooms, c) && (c.roomID in s.net.rooms ==> s.net.rooms[c.roomID] != {})
    ensures Inv(DoRegister(s, c))
  {
    hide Exact, AddClient, Inv;
    FirstExactlyInNewRoom(s.net.rooms, c);
    ExpectedSame(s, DoRegister(s, c));
  }

  lemma UnregisterKeeps(s: Hub, c: Client)
    requires Inv(s) && s.subs.pc.Idle? && c in s.net.clients
    ensures Inv(DoUnregister(s, c))
  {
    hide Exact, Inv;
    ExpectedSame(s, DoUnregister(s, c));
  }

  lemma ProcessKeeps(s: Hub)
    requires Inv(s) && Membership.Inv(s)
    ensures Inv(DoProcess(s))
  {
    hide Inv, DoRegister, DoUnregister;
    if MayProcess(s) {
      var s' := s.(net := s.net.(queue := s.net.queue[1..]));
      AlikeKeeps(s, s');
      match s.net.queue[0]
      case Register(c) => RegisterKeeps(s', c);
      case Unregister(c, _) => UnregisterKeeps(s', c);
      case FromClient(_) =>
    }
  }

  lemma ExpectedSame(s: Hub, s': Hub)
    requires Inv(s) && Expected(s) == Expected(s')
    requires s'.subs.(pc := s.subs.pc) == s.subs
    requires s'.subs.pc.Starting? ==> s'.subs.pc.room in s'.net.rooms
    requires s'.subs.pc.Stopping? ==> s'.subs.pc.room !in s'.net.rooms
    ensures Inv(s')
  {
    forall r | r !in s'.subs.unclean ensures Exact(s', r) {
      assert Exact(s, r);
    }
  }

  lemma StepKeeps(s: Hub, ev: Event)
    requires Inv(s) && Membership.Inv(s)
    ensures Inv(Step(s, ev))
  {
    hide Inv, Membership.Inv, LoopStep, DoProcess, DoSubscribe, DoUnsubscribe;
    match ev
    case OnLoop(e) => LoopKeeps(s, e);
    case OnMain(Process) => ProcessKeeps(s);
    case OnMain(Subscribe(l)) => SubscribeKeeps(s, l, Cursor(s));
    case OnMain(Unsubscribe) => UnsubscribeKeeps(s);
    case OnMain(StopAll) => StopAllKeeps(s);
    case OnClient(e) => AlikeKeeps(s, Step(s, ev));
    case OnSweep(e) => AlikeKeeps(s, Step(s, ev));
    case PublishTo(r, a) => AlikeKeeps(s, Step(s, ev));
  }

  lemma StopAllKeeps(s: Hub)
    requires Inv(s)
    ensures Inv(s.(subs := DoStopAll(s.subs)))
  {
  }

  lemma {:induction false} RunKeeps(es: seq<Event>)
    ensures Inv(Run(es))
  {
    if es != [] {
      RunKeeps(es[..|es| - 1]);
      Membership.RunKeeps(es[..|es| - 1]);
      StepKeeps(Run(es[..|es| - 1]), es[|es| - 1]);
    }
  }

  // ----- what every run guarantees -----------------------------------------------

  /** At message boundaries a subscribed room has a client, and its entry cancels a
      started, uncancelled loop that has not done its final delete. */
  lemma SubscribedRoomsAreLive(es: seq<Event>)
    ensures var s := Run(es);
      && (s.subs.pc.Idle? ==> forall r :: r in s.subs.entries ==> r in s.net.rooms && s.net.rooms[r] != {})
      && forall r :: r in s.subs.entries ==>
           var l := s.subs.entries[r];
           && l in s.subs.loops && s.subs.loops[l].room == r
           && !s.subs.loops[l].cancelled && !s.subs.loops[l].phase.Dead?
  {
    RunKeeps(es);
    Membership.RunKeeps(es);
  }

  /** Starting a subscription never finds an old entry. */
  lemma StartAlwaysStarts(es: seq<Event>)
    ensures var s := Run(es); s.subs.pc.Starting? ==> s.subs.pc.room !in s.subs.entries && s.subs.pc.room in s.net.rooms
  {
    RunKeeps(es);
  }

  /** In a room where no loop died by itself, StopAll removed no entry and every stopped
      loop did its final delete before the room reopened: the room is subscribed exactly
      when it has clients, it has then exactly one uncancelled loop, its entry, its other
      loops are dead, and otherwise it has no uncancelled loop. */
  lemma CleanRoomsAreExact(es: seq<Event>, r: nat)
    requires var s := Run(es); r !in s.subs.unclean && s.subs.pc.Idle?
    ensures var s := Run(es); r in s.subs.entries <==> r in s.net.rooms
    ensures var u := Run(es).subs;
      forall l :: l in u.loops && u.loops[l].room == r ==>
        && (!u.loops[l].cancelled <==> r in u.entries && u.entries[r] == l)
        && (r in u.entries && u.entries[r] != l ==> u.loops[l].phase.Dead?)
  {
    RunKeeps(es);
    assert Exact(Run(es), r);
  }

  // ----- reopening a room too early ------------------------------------------------

  /** The subscriber loops go on in any way, but none of them dies by itself. */
  ghost predicate LoopsOnly(more: seq<Event>) {
    forall i :: 0 <= i < |more| ==> more[i].OnLoop? && !more[i].le.Die?
  }

  /** This loop of the room has still to do its final delete. */
  predicate Lingers(u: Subs, k: nat, r: nat) {
    && k in u.loops && u.loops[k].room == r
    && (u.loops[k].phase.Exiting? || (u.loops[k].cancelled && !u.loops[k].phase.Dead?))
  }

  ghost predicate NoneLingers(u: Subs, r: nat) {
    forall k :: !Lingers(u, k, r)
  }

  ghost predicate Settled(s: Hub, r: nat) {
    r in s.subs.entries && NoneLingers(s.subs, r)
  }

  /** No step of a loop makes another of the room linger, and so none deletes its entry. */
  lemma LoopStepSettled(s: Hub, e: LoopEvent, r: nat)
    requires Settled(s, r) && !e.Die?
    ensures Settled(LoopStep(s, e), r)
  {
    var s' := LoopStep(s, e);
    assert !Lingers(s.subs, e.l, r);
    match e
    case Receive(l, at) => PhasesOnly(s, s', r);
    case SendTo(l, c) => PhasesOnly(s, s', r);
    case Die(_) =>
    case Finish(_) => assert forall k :: Lingers(s'.subs, k, r) ==> Lingers(s.subs, k, r);
    case Observe(_) => assert forall k :: Lingers(s'.subs, k, r) ==> Lingers(s.subs, k, r);
    case FinalDelete(_) => assert forall k :: Lingers(s'.subs, k, r) ==> Lingers(s.subs, k, r);
  }

  /** Receiving and sending keep a loop out of exiting, and cancel nobody. */
  lemma PhasesOnly(s: Hub, s': Hub, r: nat)
    requires Settled(s, r) && s'.subs.entries == s.subs.entries && s'.subs.loops.Keys == s.subs.loops.Keys
    requires forall k :: k in s.subs.loops ==>
      && s'.subs.loops[k].room == s.subs.loops[k].room && s'.subs.loops[k].cancelled == s.subs.loops[k].cancelled
      && (s'.subs.loops[k].phase.Dead? <==> s.subs.loops[k].phase.Dead?)
      && (s'.subs.loops[k].phase.Exiting? ==> s.subs.loops[k].phase.Exiting?)
    ensures Settled(s', r)
  {
    assert forall k :: Lingers(s'.subs, k, r) ==> Lingers(s.subs, k, r);
  }

  lemma {:induction false} LoopsSettled(es: seq<Event>, more: seq<Event>, r: nat)
    requires Settled(Run(es), r) && LoopsOnly(more)
    ensures Settled(Run(es + more), r)
  {
    if more == [] {
      assert es + more == es;
    } else {
      var n := |more| - 1;
      LoopsSettled(es, more[..n], r);
      assert es + more == (es + more[..n]) + [more[n]];
      Membership.RunSnoc(es + more[..n], more[n]);
      if Run(es + more[..n]).crash.NoCrash? {
        LoopStepSettled(Run(es + more[..n]), more[n].le, r);
      }
    }
  }

  lemma SubscribeSettles(s: Hub, l: nat)
    requires Inv(s) && s.crash.NoCrash? && s.subs.pc.Starting? && l !in s.subs.loops
    requires NoneLingers(s.subs, s.subs.pc.room)
    ensures Settled(Step(s, OnMain(Subscribe(l))), s.subs.pc.room)
  {
    var u := Step(s, OnMain(Subscribe(l))).subs;
    assert forall k :: Lingers(u, k, s.subs.pc.room) ==> Lingers(s.subs, k, s.subs.pc.room);
  }

  /** Steps of loop `k` that leave the rooms, the entries and the other loops alone. */
  ghost predicate OnlyMoves(s: Hub, s': Hub, k: nat) {
    && s'.crash == s.crash && s'.net.rooms == s.net.rooms && s'.subs.entries == s.subs.entries && s'.subs.pc == s.subs.pc
    && s'.subs.loops.Keys == s.subs.loops.Keys
    && (forall l :: l in s.subs.loops && l != k ==> s'.subs.loops[l] == s.subs.loops[l])
    && (k in s.subs.loops ==>
          s'.subs.loops[k].room == s.subs.loops[k].room && s'.subs.loops[k].cancelled == s.subs.loops[k].cancelled)
  }

  /** A sending loop can try its next client: it is registered, so its channel is open. */
  lemma SendsOn(s: Hub, k: nat, c: Client)
    requires Membership.Inv(s) && Delivery.Content(s) && s.crash.NoCrash?
    requires k in s.subs.loops && s.subs.loops[k].phase.Sending? && c in s.subs.loops[k].phase.remaining
    ensures var s' := Step(s, OnLoop(SendTo(k, c)));
      && OnlyMoves(s, s', k) && s'.subs.loops[k].phase.Sending?
      && s'.subs.loops[k].phase.remaining == s.subs.loops[k].phase.remaining - {c}
      && s'.topics == s.topics
  {
    assert Delivery.LoopOk(s, k);
    assert IsRegistered(s.net.rooms, c) && s.net.clients[c].chan.open;
    assert MaySend(s, k, c);
  }

  lemma FinishesNow(s: Hub, k: nat)
    requires s.crash.NoCrash? && k in s.subs.loops && s.subs.loops[k].phase.Sending?
    requires s.subs.loops[k].phase.remaining == {}
    ensures var s' := Step(s, OnLoop(Finish(k))); OnlyMoves(s, s', k) && s'.subs.loops[k].phase.Running?
    ensures var s' := Step(s, OnLoop(Finish(k))); s'.topics == s.topics && s'.subs.loops[k].cursor == s.subs.loops[k].cursor
  {
  }

  /** A loop in the middle of a broadcast can finish it by steps of its own. */
  lemma {:induction false} DrainLoop(es: seq<Event>, k: nat) returns (more: seq<Event>)
    requires Run(es).crash.NoCrash? && k in Run(es).subs.loops && Run(es).subs.loops[k].phase.Sending?
    ensures LoopsOnly(more) && OnlyMoves(Run(es), Run(es + more), k)
    ensures Run(es + more).subs.loops[k].phase.Running? && Run(es + more).topics == Run(es).topics
    ensures forall i :: 0 <= i < |more| ==> !more[i].le.Receive?
    decreases Run(es).subs.loops[k].phase.remaining
  {
    hide OnlyMoves, Step;
    var s := Run(es);
    var remaining := s.subs.loops[k].phase.remaining;
    if remaining == {} {
      more := [OnLoop(Finish(k))];
      Membership.RunSnoc(es, OnLoop(Finish(k)));
      FinishesNow(s, k);
    } else {
      var c :| c in remaining;
      var e := OnLoop(SendTo(k, c));
      Membership.RunKeeps(es);
      Delivery.RunContent(es);
      SendsOn(s, k, c);
      Membership.RunSnoc(es, e);
      Moved(s, Run(es + [e]), k);
      var rest := DrainLoop(es + [e], k);
      more := [e] + rest;
      assert es + more == es + [e] + rest;
      MovesOn(s, Run(es + [e]), Run(es + more), k);
    }
  }

  lemma Moved(s: Hub, s': Hub, k: nat)
    requires OnlyMoves(s, s', k) && k in s.subs.loops
    ensures k in s'.subs.loops && s'.crash == s.crash
  {
  }

  lemma MovesOn(s0: Hub, s1: Hub, s2: Hub, k: nat)
    requires OnlyMoves(s0, s1, k) && OnlyMoves(s1, s2, k)
    ensures OnlyMoves(s0, s2, k)
  {
  }

  /** A lingering loop that is not sending leaves by itself and deletes the room's entry. */
  lemma LeavesNow(s: Hub, k: nat, r: nat)
    requires s.crash.NoCrash? && Lingers(s.subs, k, r) && !s.subs.loops[k].phase.Sending?
    ensures var s' := Step(Step(s, OnLoop(Observe(k))), OnLoop(FinalDelete(k)));
      && s'.net == s.net && s'.subs.pc == s.subs.pc && r !in s'.subs.entries
      && forall l :: l in s.subs.loops && l != k ==> l in s'.subs.loops && s'.subs.loops[l] == s.subs.loops[l]
  {
  }

  lemma Leaves(es: seq<Event>, k: nat, r: nat) returns (more: seq<Event>)
    requires Run(es).crash.NoCrash? && Lingers(Run(es).subs, k, r)
    ensures LoopsOnly(more)
    ensures var s, s' := Run(es), Run(es + more);
      && s'.net.rooms == s.net.rooms && s'.subs.pc == s.subs.pc && r !in s'.subs.entries
      && forall l :: l in s.subs.loops && l != k ==> l in s'.subs.loops && s'.subs.loops[l] == s.subs.loops[l]
  {
    var first: seq<Event> := [];
    assert es + first == es;
    if Run(es).subs.loops[k].phase.Sending? {
      first := DrainLoop(es, k);
    }
    var before, observe, delete := es + first, OnLoop(Observe(k)), OnLoop(FinalDelete(k));
    LeavesNow(Run(before), k, r);
    Membership.RunSnoc(before, observe);
    Membership.RunSnoc(before + [observe], delete);
    more := first + [observe] + [delete];
    assert es + more == before + [observe] + [delete];
  }

  /** An older loop's final delete removes its successor's entry: the room has clients
      and an uncancelled loop, but nobody can cancel that loop any more. */
  lemma LateDeleteOrphans(es: seq<Event>, k: nat, l: nat) returns (more: seq<Event>)
    requires var s := Run(es);
      s.crash.NoCrash? && s.subs.pc.Starting? && l !in s.subs.loops && Lingers(s.subs, k, s.subs.pc.room)
    ensures LoopsOnly(more)
    ensures var r, s := Run(es).subs.pc.room, Run(es + [OnMain(Subscribe(l))] + more);
      && r in s.net.rooms && s.net.rooms[r] != {} && s.net.rooms == Run(es).net.rooms
      && s.subs.pc == Idle && r !in s.subs.entries
      && l in s.subs.loops && s.subs.loops[l].room == r && !s.subs.loops[l].cancelled && s.subs.loops[l].Live()
  {
    RunKeeps(es);
    Membership.RunKeeps(es);
    Membership.RunSnoc(es, OnMain(Subscribe(l)));
    more := Leaves(es + [OnMain(Subscribe(l))], k, Run(es).subs.pc.room);
  }

  /** A room is reopened: the new subscription survives everything the subscriber loops can
      still do, short of dying by themselves, if and only if no earlier loop of the room is
      exiting, or cancelled and not yet dead. */
  lemma ReopeningIsSafeExactly(es: seq<Event>, l: nat)
    requires var s := Run(es); s.crash.NoCrash? && s.subs.pc.Starting? && l !in s.subs.loops
    ensures var s := Run(es);
      NoneLingers(s.subs, s.subs.pc.room) <==>
        forall more :: LoopsOnly(more) ==> s.subs.pc.room in Run(es + [OnMain(Subscribe(l))] + more).subs.entries
  {
    var s, r, es1 := Run(es), Run(es).subs.pc.room, es + [OnMain(Subscribe(l))];
    if NoneLingers(s.subs, r) {
      RunKeeps(es);
      Membership.RunSnoc(es, OnMain(Subscribe(l)));
      SubscribeSettles(s, l);
      forall more | LoopsOnly(more) ensures r in Run(es1 + more).subs.entries {
        LoopsSettled(es1, more, r);
      }
    } else {
      var k :| Lingers(s.subs, k, r);
      var more := LateDeleteOrphans(es, k, l);
      assert LoopsOnly(more) && r !in Run(es1 + more).subs.entries;
    }
  }

  /** In a clean room that condition says that the earlier loops are dead. */
  lemma CleanRoomLingers(es: seq<Event>)
    requires var u := Run(es).subs; u.pc.Starting? && u.pc.room !in u.unclean
    ensures var u := Run(es).subs; NoneLingers(u, u.pc.room) <==> AllDead(u, u.pc.room)
  {
    RunKeeps(es);
    var u := Run(es).subs;
    assert Exact(Run(es), u.pc.room);
    if NoneLingers(u, u.pc.room) {
      forall k | k in u.loops && u.loops[k].room == u.pc.room ensures u.loops[k].phase.Dead? {
        assert !Lingers(u, k, u.pc.room);
      }
    }
  }

  /** It happens: one client leaves and another joins before the first loop noticed. */
  lemma EarlyReopening(c: Client, d: Client) returns (es: seq<Event>)
    requires c != d && c.roomID == d.roomID
    ensures var s := Run(es);
      && s.net.rooms == map[d.roomID := {d}] && d in s.net.clients && s.net.clients[d].chan == FRESH
      && s.subs.loops == map[0 := Loop(d.roomID, true, 0, Running)]
      && s.subs.pc == Starting(d.roomID) && s.subs.unclean == {} && s.crash == NoCrash && s.topics == map[]
      && s.net.clients[d].entered == []
  {
    es := Membership.Joined(c);
    var s := Run(es);
    LeftAlone(s, c);
    Membership.RunSnoc(es, OnClient(Leave(c)));
    Membership.RunSnoc(es + [OnClient(Leave(c))], OnMain(Process));
    es := es + [OnClient(Leave(c))] + [OnMain(Process)];
    Reopened(Run(es), d);
    Membership.RunSnoc(es, OnMain(Unsubscribe));
    Membership.RunSnoc(es + [OnMain(Unsubscribe)], OnClient(Connect(d)));
    Membership.RunSnoc(es + [OnMain(Unsubscribe)] + [OnClient(Connect(d))], OnMain(Process));
    es := es + [OnMain(Unsubscribe)] + [OnClient(Connect(d))] + [OnMain(Process)];
  }

  lemma LeftAlone(s: Hub, c: Client)
    requires s.net.rooms == map[c.roomID := {c}] && c in s.net.clients && s.net.clients.Keys == {c}
    requires s.net.queue == [] && s.subs.loops == map[0 := Loop(c.roomID, false, 0, Running)]
    requires s.subs.pc == Idle && s.crash == NoCrash
    ensures var s' := Step(Step(s, OnClient(Leave(c))), OnMain(Process));
      && s'.net.rooms == map[] && s'.net.clients.Keys == {c} && s'.net.queue == []
      && s'.subs == s.subs.(pc := Stopping(c.roomID)) && s'.crash == NoCrash && s'.topics == s.topics
  {
    var s1 := Step(s, OnClient(Leave(c)));
    assert s1.net.queue == [Unregister(c, false)];
  }

  lemma Reopened(s: Hub, d: Client)
    requires s.net.rooms == map[] && d !in s.net.clients && s.net.queue == []
    requires s.subs.loops == map[0 := Loop(d.roomID, false, 0, Running)] && s.subs.entries == map[d.roomID := 0]
    requires s.subs.pc == Stopping(d.roomID) && s.crash == NoCrash
    ensures var s' := Step(Step(Step(s, OnMain(Unsubscribe)), OnClient(Connect(d))), OnMain(Process));
      && s'.net.rooms == map[d.roomID := {d}] && d in s'.net.clients && s'.net.clients[d].chan == FRESH
      && s'.subs.loops == map[0 := Loop(d.roomID, true, 0, Running)]
      && s'.subs.pc == Starting(d.roomID) && s'.subs.unclean == s.subs.unclean && s'.crash == NoCrash
      && s'.topics == s.topics && s'.net.clients[d].entered == []
  {
    var s1 := Step(s, OnMain(Unsubscribe));
    var s2 := Step(s1, OnClient(Connect(d)));
    assert s2.net.queue == [Register(d)];
    assert !Broadcasting(s2.subs);
  }

  /** So a run ends with a room that has a client and a live, uncancelled loop, and no
      entry by which anyone could ever cancel it. */
  lemma OrphanHappens(c: Client, d: Client) returns (es: seq<Event>)
    requires c != d && c.roomID == d.roomID
    ensures var s := Run(es);
      && s.net.rooms == map[d.roomID := {d}] && s.subs.pc == Idle && d.roomID !in s.subs.entries
      && 1 in s.subs.loops && s.subs.loops[1].room == d.roomID
      && !s.subs.loops[1].cancelled && s.subs.loops[1].Live()
  {
    var early := EarlyReopening(c, d);
    var more := LateDeleteOrphans(early, 0, 1);
    es := early + [OnMain(Subscribe(1))] + more;
  }
}
