/** For a registered client: every eligible message its room's loops received since it
    was registered was written, is queued, was dropped on a full buffer, or is about to
    be offered to it. */
module DeliveryCount {
  import opened Clients
  import opened HubMachine
  import Membership
  import Delivery

  /** How many of these messages are for this user: those of the other users. */
  function Eligible(heard: seq<Heard>, userID: nat): nat {
    if heard == [] then 0
    else Eligible(heard[..|heard| - 1], userID) + if heard[|heard| - 1].action.userID != userID then 1 else 0
  }

  lemma EligibleSnoc(heard: seq<Heard>, h: Heard, userID: nat)
    ensures Eligible(heard + [h], userID) == Eligible(heard, userID) + if h.action.userID != userID then 1 else 0
  {
    assert (heard + [h])[..|heard|] == heard;
  }

  predicate Facing(u: Subs, l: nat, c: Client) {
    l in u.loops && u.loops[l].phase.Sending? && c in u.loops[l].phase.remaining
  }

  /** The loops that are still to offer their current message to this client. */
  function InFlight(u: Subs, c: Client): set<nat> {
    set l | l in u.loops && Facing(u, l, c)
  }

  ghost predicate Conserved(s: Hub, c: Client) {
    c in s.net.clients && IsRegistered(s.net.rooms, c) ==>
      var st, heard := s.net.clients[c], TopicOf(s, c.roomID).heard;
      && st.joined <= |heard|
      && Eligible(heard[st.joined..], c.userID) == |st.entered| + |st.dropped| + |InFlight(s.subs, c)|
  }

  /** Steps that change neither the client's account nor who is about to send to it. */
  lemma SameAccount(s: Hub, s': Hub, c: Client)
    requires Conserved(s, c) && Delivery.Untouched(s, s', c)
    requires TopicOf(s', c.roomID).heard == TopicOf(s, c.roomID).heard
    requires forall l :: Facing(s'.subs, l, c) <==> Facing(s.subs, l, c)
    ensures Conserved(s', c)
  {
    assert InFlight(s'.subs, c) == InFlight(s.subs, c);
  }

  lemma ReceiveFlight(s: Hub, l: nat, at: nat, c: Client)
    requires DoReceive(s, l, at) != s && s.subs.loops[l].room == c.roomID && IsRegistered(s.net.rooms, c)
    ensures l !in InFlight(s.subs, c)
    ensures InFlight(DoReceive(s, l, at).subs, c) ==
      InFlight(s.subs, c) + if TopicOf(s, c.roomID).published[at].userID != c.userID then {l} else {}
  {
  }

  lemma ReceiveCounts(s: Hub, l: nat, at: nat, c: Client)
    requires Conserved(s, c) && Membership.RoomsOk(s)
    ensures Conserved(DoReceive(s, l, at), c)
  {
    var s' := DoReceive(s, l, at);
    Delivery.ReceiveUntouched(s, l, at, c);
    if s' != s && s.subs.loops[l].room == c.roomID && c in s.net.clients && IsRegistered(s.net.rooms, c) {
      var st, heard := s.net.clients[c], TopicOf(s, c.roomID).heard;
      var a := TopicOf(s, c.roomID).published[at];
      assert TopicOf(s', c.roomID).heard == heard + [Heard(at, a)];
      assert (heard + [Heard(at, a)])[st.joined..] == heard[st.joined..] + [Heard(at, a)];
      EligibleSnoc(heard[st.joined..], Heard(at, a), c.userID);
      ReceiveFlight(s, l, at, c);
    } else {
      assert forall k :: Facing(s'.subs, k, c) ==> k != l || s' == s || IsRegistered(s.net.rooms, c);
      SameUnlessFacing(s, s', l, c);
    }
  }

  lemma SameUnlessFacing(s: Hub, s': Hub, l: nat, c: Client)
    requires Conserved(s, c) && Delivery.Untouched(s, s', c)
    requires IsRegistered(s.net.rooms, c) && c in s.net.clients ==>
      && TopicOf(s', c.roomID).heard == TopicOf(s, c.roomID).heard
      && forall k :: Facing(s'.subs, k, c) <==> Facing(s.subs, k, c)
    ensures Conserved(s', c)
  {
    if IsRegistered(s.net.rooms, c) && c in s.net.clients {
      SameAccount(s, s', c);
    }
  }

  lemma SendToCounts(s: Hub, l: nat, d: Client, c: Client)
    requires Conserved(s, c) && Membership.LoopsOk(s) && Membership.RoomsOk(s)
    ensures Conserved(DoSendTo(s, l, d), c)
  {
    var s' := DoSendTo(s, l, d);
    if MaySend(s, l, d) {
      assert IsRegistered(s.net.rooms, d) && s.net.clients[d].chan.open;
      if c == d {
        assert InFlight(s'.subs, c) == InFlight(s.subs, c) - {l};
        assert l in InFlight(s.subs, c);
      } else {
        SameAccount(s, s', c);
      }
    }
  }

  lemma ProcessCounts(s: Hub, c: Client)
    requires Conserved(s, c) && Membership.Inv(s) && Delivery.Faithful(s, c)
    ensures Conserved(DoProcess(s), c)
  {
    hide AddClient, RemoveClient, Membership.Inv;
    var s' := DoProcess(s);
    Delivery.ProcessUntouched(s, c);
    if Delivery.Untouched(s, s', c) {
      SameAccount(s, s', c);
    } else if s.net.queue[0].Unregister? {
      if IsRegistered(s.net.rooms, c) {
        Removed(s.net.rooms, c);
      }
    } else {
      HeadIsNew(s);
      assert InFlight(s'.subs, c) == {};
    }
  }

  lemma Removed(rooms: map<nat, set<Client>>, c: Client)
    ensures !IsRegistered(RemoveClient(rooms, c), c)
  {
  }

  lemma HeadIsNew(s: Hub)
    requires Membership.Inv(s) && s.net.queue != [] && s.net.queue[0].Register?
    ensures !IsRegistered(s.net.rooms, s.net.queue[0].c) && s.net.queue[0].c !in s.gone
  {
  }

  lemma ClientCounts(s: Hub, ev: ClientEvent, c: Client)
    requires Conserved(s, c) && Membership.RoomsOk(s)
    ensures Conserved(ClientStep(s, ev), c)
  {
    hide InFlight, Eligible;
    assert IsRegistered(s.net.rooms, c) ==> c in s.net.clients;
  }

  lemma PhaseFacing(u: Subs, k: nat, c: Client)
    ensures forall l :: Facing(DoFinish(u, k), l, c) <==> Facing(u, l, c)
    ensures forall l :: Facing(DoObserve(u, k), l, c) <==> Facing(u, l, c)
    ensures forall l :: Facing(DoDie(u, k), l, c) <==> Facing(u, l, c)
    ensures forall l :: Facing(DoFinalDelete(u, k), l, c) <==> Facing(u, l, c)
  {
  }

  lemma MainFacing(u: Subs, k: nat, cursor: nat, c: Client)
    ensures forall l :: Facing(DoSubscribe(u, k, cursor), l, c) <==> Facing(u, l, c)
    ensures forall l :: Facing(DoUnsubscribe(u), l, c) <==> Facing(u, l, c)
    ensures forall l :: Facing(DoStopAll(u), l, c) <==> Facing(u, l, c)
  {
  }

  lemma OtherCounts(s: Hub, ev: Event, c: Client)
    requires Conserved(s, c) && !ev.OnClient? && (ev.OnLoop? ==> !ev.le.Receive? && !ev.le.SendTo?)
    requires ev.OnMain? ==> !ev.me.Process?
    ensures Conserved(Step(s, ev), c)
  {
    hide Conserved, Facing, DoFinish, DoObserve, DoDie, DoFinalDelete, DoSubscribe, DoUnsubscribe, DoStopAll;
    var l := if ev.OnLoop? then ev.le.l else if ev.OnMain? && ev.me.Subscribe? then ev.me.l else 0;
    PhaseFacing(s.subs, l, c);
    MainFacing(s.subs, l, Cursor(s), c);
    SameAccount(s, Step(s, ev), c);
  }

  lemma StepCounts(s: Hub, ev: Event, c: Client)
    requires Conserved(s, c) && Membership.Inv(s) && Delivery.Faithful(s, c)
    ensures Conserved(Step(s, ev), c)
  {
    hide Conserved, Membership.Inv, ClientStep, DoReceive, DoSendTo, DoProcess, Membership.LoopsOk, Membership.RoomsOk;
    Delivery.LoopsAreOk(s);
    match ev
    case OnClient(e) => ClientCounts(s, e, c);
    case OnLoop(SendTo(l, d)) => SendToCounts(s, l, d, c);
    case OnLoop(Receive(l, at)) => ReceiveCounts(s, l, at, c);
    case OnMain(Process) => ProcessCounts(s, c);
    case _ => OtherCounts(s, ev, c);
  }

  lemma {:induction false} RunCounts(es: seq<Event>, c: Client)
    ensures Conserved(Run(es), c)
  {
    if es != [] {
      var before := es[..|es| - 1];
      RunCounts(before, c);
      Membership.RunKeeps(before);
      Delivery.RunFaithful(before, c);
      StepCounts(Run(before), es[|es| - 1], c);
    }
  }

  /** For a client registered throughout: the eligible messages received by its room's
      loops are those written, queued, dropped when full, and in a loop's hands. */
  lemma EveryMessageAccounted(es: seq<Event>, c: Client)
    requires var s := Run(es); c in s.net.clients && IsRegistered(s.net.rooms, c)
    ensures var s := Run(es);
      var st, heard := s.net.clients[c], TopicOf(s, c.roomID).heard;
      && st.joined <= |heard|
      && Eligible(heard[st.joined..], c.userID) ==
           |Delivery.Indexes(st.written)| + |Delivery.Indexes(st.chan.buffer)| + |st.dropped| + |InFlight(s.subs, c)|
    ensures !Broadcasting(Run(es).subs) ==> InFlight(Run(es).subs, c) == {}
  {
    RunCounts(es, c);
    Membership.RunKeeps(es);
    Delivery.RunFaithful(es, c);
    var st := Run(es).net.clients[c];
    assert c !in Run(es).gone;
    Delivery.IndexesAppend(st.written, st.chan.buffer);
  }

  /** A message is dropped for a client only when 256 messages wait in its buffer. */
  lemma DropsOnlyWhenFull(es: seq<Event>, ev: Event, c: Client)
    requires c in Run(es).net.clients && c in Run(es + [ev]).net.clients
    requires Run(es + [ev]).net.clients[c].dropped != Run(es).net.clients[c].dropped
    ensures |Run(es).net.clients[c].chan.buffer| == 256
    ensures Run(es + [ev]).net.clients[c].chan == Run(es).net.clients[c].chan
    ensures ev.OnLoop? && ev.le.SendTo? && ev.le.c == c
  {
    Membership.RunSnoc(es, ev);
    Delivery.RunContent(es);
    Delivery.Bounded(Run(es), c);
    NewlyDropped(Run(es), ev, c);
  }

  lemma NewlyDropped(s: Hub, ev: Event, c: Client)
    requires c in s.net.clients && c in Step(s, ev).net.clients
    requires Step(s, ev).net.clients[c].dropped != s.net.clients[c].dropped
    ensures Full(s.net.clients[c].chan) && Step(s, ev).net.clients[c].chan == s.net.clients[c].chan
    ensures ev.OnLoop? && ev.le.SendTo? && ev.le.c == c
  {
    hide AddClient, RemoveClient, IsRegistered;
  }

  // ----- which messages those are ------------------------------------------------------

  predicate FacingAt(u: Subs, l: nat, c: Client, at: nat) {
    Facing(u, l, c) && u.loops[l].phase.at == at
  }

  /** Publication `at` entered the client's buffer, was dropped, or is in a loop's hands. */
  ghost predicate Handled(s: Hub, c: Client, at: nat)
    requires c in s.net.clients
  {
    || at in s.net.clients[c].entered || at in s.net.clients[c].dropped
    || exists l :: FacingAt(s.subs, l, c, at)
  }

  ghost predicate NoneMissed(s: Hub, c: Client) {
    c in s.net.clients && IsRegistered(s.net.rooms, c) ==>
      var heard := TopicOf(s, c.roomID).heard;
      forall k :: s.net.clients[c].joined <= k < |heard| && heard[k].action.userID != c.userID ==>
        Handled(s, c, heard[k].at)
  }

  /** Steps that take nothing from what was handled and let no loop hear anything. */
  lemma SameMissed(s: Hub, s': Hub, c: Client)
    requires NoneMissed(s, c) && c in s.net.clients && c in s'.net.clients
    requires IsRegistered(s'.net.rooms, c) ==> IsRegistered(s.net.rooms, c)
    requires TopicOf(s', c.roomID).heard == TopicOf(s, c.roomID).heard
    requires s'.net.clients[c].joined == s.net.clients[c].joined
    requires forall at :: Handled(s, c, at) ==> Handled(s', c, at)
    ensures NoneMissed(s', c)
  {
  }

  lemma UntouchedMissed(s: Hub, s': Hub, c: Client)
    requires NoneMissed(s, c) && Delivery.Untouched(s, s', c)
    requires TopicOf(s', c.roomID).heard == TopicOf(s, c.roomID).heard
    requires forall l, at :: FacingAt(s.subs, l, c, at) ==> FacingAt(s'.subs, l, c, at)
    ensures NoneMissed(s', c)
  {
    if c in s.net.clients {
      forall at | Handled(s, c, at) ensures Handled(s', c, at) {
        if exists l :: FacingAt(s.subs, l, c, at) {
          var l :| FacingAt(s.subs, l, c, at);
          assert FacingAt(s'.subs, l, c, at);
        }
      }
      SameMissed(s, s', c);
    }
  }

  lemma ReceiveMisses(s: Hub, l: nat, at: nat, c: Client)
    requires NoneMissed(s, c) && Membership.RoomsOk(s)
    ensures NoneMissed(DoReceive(s, l, at), c)
  {
    var s' := DoReceive(s, l, at);
    Delivery.ReceiveUntouched(s, l, at, c);
    if s' != s && c in s.net.clients && IsRegistered(s.net.rooms, c) {
      forall k, i | FacingAt(s.subs, k, c, i) ensures FacingAt(s'.subs, k, c, i) {
        assert k != l;
      }
      var a := TopicOf(s, s.subs.loops[l].room).published[at];
      if s.subs.loops[l].room == c.roomID && a.userID != c.userID {
        assert FacingAt(s'.subs, l, c, at);
      }
      var heard, heard' := TopicOf(s, c.roomID).heard, TopicOf(s', c.roomID).heard;
      forall k | s.net.clients[c].joined <= k < |heard'| && heard'[k].action.userID != c.userID
        ensures Handled(s', c, heard'[k].at)
      {
        if k < |heard| {
          assert heard'[k] == heard[k];
          assert Handled(s, c, heard[k].at);
          StillHandled(s, s', c, heard[k].at);
        }
      }
    }
  }

  lemma StillHandled(s: Hub, s': Hub, c: Client, at: nat)
    requires c in s.net.clients && c in s'.net.clients && s'.net.clients[c] == s.net.clients[c]
    requires Handled(s, c, at) && forall l, i :: FacingAt(s.subs, l, c, i) ==> FacingAt(s'.subs, l, c, i)
    ensures Handled(s', c, at)
  {
    if exists l :: FacingAt(s.subs, l, c, at) {
      var l :| FacingAt(s.subs, l, c, at);
      assert FacingAt(s'.subs, l, c, at);
    }
  }

  lemma SendToMisses(s: Hub, l: nat, d: Client, c: Client)
    requires NoneMissed(s, c) && Membership.LoopsOk(s) && Membership.RoomsOk(s)
    ensures NoneMissed(DoSendTo(s, l, d), c)
  {
    var s' := DoSendTo(s, l, d);
    if MaySend(s, l, d) && c in s.net.clients {
      assert IsRegistered(s.net.rooms, d) && s.net.clients[d].chan.open;
      var at := s.subs.loops[l].phase.at;
      forall i | Handled(s, c, i) ensures Handled(s', c, i) {
        if exists k :: FacingAt(s.subs, k, c, i) {
          var k :| FacingAt(s.subs, k, c, i);
          assert (k == l && c == d) || FacingAt(s'.subs, k, c, i);
        }
      }
      SameMissed(s, s', c);
    }
  }

  lemma ProcessMisses(s: Hub, c: Client)
    requires NoneMissed(s, c)
    ensures NoneMissed(DoProcess(s), c)
  {
    hide AddClient, RemoveClient;
    var s' := DoProcess(s);
    Delivery.ProcessUntouched(s, c);
    if Delivery.Untouched(s, s', c) {
      UntouchedMissed(s, s', c);
    } else if s.net.queue[0].Unregister? {
      if IsRegistered(s.net.rooms, c) {
        Removed(s.net.rooms, c);
      }
    }
  }

  lemma ClientMisses(s: Hub, ev: ClientEvent, c: Client)
    requires NoneMissed(s, c) && Membership.RoomsOk(s)
    ensures NoneMissed(ClientStep(s, ev), c)
  {
    var s' := ClientStep(s, ev);
    assert IsRegistered(s.net.rooms, c) ==> c in s.net.clients;
    if c in s.net.clients {
      assert s'.net.clients[c].entered == s.net.clients[c].entered && s'.net.clients[c].dropped == s.net.clients[c].dropped;
      forall at | Handled(s, c, at) ensures Handled(s', c, at) {
      }
      SameMissed(s, s', c);
    }
  }

  lemma PhaseFacingAt(u: Subs, k: nat, c: Client)
    ensures forall l, at :: FacingAt(u, l, c, at) ==> FacingAt(DoFinish(u, k), l, c, at)
    ensures forall l, at :: FacingAt(u, l, c, at) ==> FacingAt(DoObserve(u, k), l, c, at)
    ensures forall l, at :: FacingAt(u, l, c, at) ==> FacingAt(DoDie(u, k), l, c, at)
    ensures forall l, at :: FacingAt(u, l, c, at) ==> FacingAt(DoFinalDelete(u, k), l, c, at)
  {
  }

  lemma MainFacingAt(u: Subs, k: nat, cursor: nat, c: Client)
    ensures forall l, at :: FacingAt(u, l, c, at) ==> FacingAt(DoSubscribe(u, k, cursor), l, c, at)
    ensures forall l, at :: FacingAt(u, l, c, at) ==> FacingAt(DoUnsubscribe(u), l, c, at)
    ensures forall l, at :: FacingAt(u, l, c, at) ==> FacingAt(DoStopAll(u), l, c, at)
  {
  }

  lemma OtherMisses(s: Hub, ev: Event, c: Client)
    requires NoneMissed(s, c) && !ev.OnClient? && (ev.OnLoop? ==> !ev.le.Receive? && !ev.le.SendTo?)
    requires ev.OnMain? ==> !ev.me.Process?
    ensures NoneMissed(Step(s, ev), c)
  {
    hide NoneMissed, FacingAt, DoFinish, DoObserve, DoDie, DoFinalDelete, DoSubscribe, DoUnsubscribe, DoStopAll;
    var l := if ev.OnLoop? then ev.le.l else if ev.OnMain? && ev.me.Subscribe? then ev.me.l else 0;
    PhaseFacingAt(s.subs, l, c);
    MainFacingAt(s.subs, l, Cursor(s), c);
    UntouchedMissed(s, Step(s, ev), c);
  }

  lemma StepMisses(s: Hub, ev: Event, c: Client)
    requires NoneMissed(s, c) && Membership.Inv(s)
    ensures NoneMissed(Step(s, ev), c)
  {
    hide NoneMissed, Membership.Inv, ClientStep, DoReceive, DoSendTo, DoProcess, Membership.LoopsOk, Membership.RoomsOk;
    Delivery.LoopsAreOk(s);
    match ev
    case OnClient(e) => ClientMisses(s, e, c);
    case OnLoop(SendTo(l, d)) => SendToMisses(s, l, d, c);
    case OnLoop(Receive(l, at)) => ReceiveMisses(s, l, at, c);
    case OnMain(Process) => ProcessMisses(s, c);
    case _ => OtherMisses(s, ev, c);
  }

  lemma {:induction false} RunMisses(es: seq<Event>, c: Client)
    ensures NoneMissed(Run(es), c)
  {
    if es != [] {
      var before := es[..|es| - 1];
      RunMisses(before, c);
      Membership.RunKeeps(before);
      StepMisses(Run(before), es[|es| - 1], c);
    }
  }

  /** And by position: each eligible publication a loop of the room received since this
      client was registered was written to it or is in its buffer, or was dropped, or is
      in a loop's hands. */
  lemma EveryPublicationHandled(es: seq<Event>, c: Client, k: nat)
    requires var s := Run(es); c in s.net.clients && IsRegistered(s.net.rooms, c)
    requires Run(es).net.clients[c].joined <= k < |TopicOf(Run(es), c.roomID).heard|
    requires TopicOf(Run(es), c.roomID).heard[k].action.userID != c.userID
    ensures var s := Run(es);
      var at := TopicOf(s, c.roomID).heard[k].at;
      at in Delivery.Holds(s.net.clients[c]) || at in s.net.clients[c].dropped || exists l :: FacingAt(s.subs, l, c, at)
  {
    RunMisses(es, c);
    Membership.RunKeeps(es);
    Delivery.RunFaithful(es, c);
    assert c !in Run(es).gone;
  }
}
