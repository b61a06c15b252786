/** What reaches a client's channel: only its own room's publications by others, and
    every one its room's loops received is written, queued or was dropped. */
module Delivery {
  import opened Clients
  import opened HubMachine
  import Membership

  predicate Has(st: ClientState, p: Payload) {
    p in st.written || p in st.chan.buffer
  }

  /** The buffer is bounded, and an action message is the publication of the client's
      room at that position, by another user. */
  ghost predicate Told(s: Hub, c: Client)
    requires c in s.net.clients
  {
    && |s.net.clients[c].chan.buffer| <= SEND_BUFFER
    && forall p :: Has(s.net.clients[c], p) && p.ActionMsg? ==>
         && p.at < |TopicOf(s, c.roomID).published| && TopicOf(s, c.roomID).published[p.at] == p.action
         && p.action.userID != c.userID
  }

  ghost predicate LoopOk(s: Hub, l: nat)
    requires l in s.subs.loops
  {
    var loop := s.subs.loops[l];
    loop.phase.Sending? ==>
      && loop.phase.at < loop.cursor && loop.phase.at < |TopicOf(s, loop.room).published|
      && forall c :: c in loop.phase.remaining ==> c.userID != TopicOf(s, loop.room).published[loop.phase.at].userID
  }

  ghost predicate Content(s: Hub) {
    && (forall c :: c in s.net.clients ==> Told(s, c))
    && (forall l :: l in s.subs.loops ==> LoopOk(s, l))
  }

  /** No loop of the second state is sending that was not doing just that before. */
  ghost predicate LoopsQuiet(loops: map<nat, Loop>, loops': map<nat, Loop>) {
    forall l :: l in loops' && loops'[l].phase.Sending? ==>
      && l in loops && loops'[l].room == loops[l].room
      && loops'[l].phase == loops[l].phase && loops'[l].cursor == loops[l].cursor
  }

  /** Steps that bring no action message to any client and no loop to sending. */
  ghost predicate NoNews(s: Hub, s': Hub) {
    && (forall r :: TopicOf(s, r).published <= TopicOf(s', r).published)
    && (forall c :: c in s'.net.clients ==>
          && |s'.net.clients[c].chan.buffer| <= SEND_BUFFER
          && forall p :: Has(s'.net.clients[c], p) && p.ActionMsg? ==> c in s.net.clients && Has(s.net.clients[c], p))
    && LoopsQuiet(s.subs.loops, s'.subs.loops)
  }

  lemma NoNewsKeeps(s: Hub, s': Hub)
    requires Content(s) && NoNews(s, s')
    ensures Content(s')
  {
    forall c | c in s'.net.clients ensures Told(s', c) {
      if c in s.net.clients {
        assert Told(s, c);
      }
    }
    forall l | l in s'.subs.loops ensures LoopOk(s', l) {
      if s'.subs.loops[l].phase.Sending? {
        assert LoopOk(s, l);
      }
    }
  }

  lemma Bounded(s: Hub, c: Client)
    requires Content(s) && c in s.net.clients
    ensures |s.net.clients[c].chan.buffer| <= SEND_BUFFER
  {
    assert Told(s, c);
  }

  lemma SameClientsNoNews(s: Hub, s': Hub)
    requires Content(s) && s'.net.clients == s.net.clients && LoopsQuiet(s.subs.loops, s'.subs.loops)
    requires forall r :: TopicOf(s, r).published <= TopicOf(s', r).published
    ensures NoNews(s, s')
  {
    forall c | c in s.net.clients ensures |s.net.clients[c].chan.buffer| <= SEND_BUFFER {
      Bounded(s, c);
    }
  }

  lemma OneClientNoNews(s: Hub, s': Hub, c: Client, st: ClientState)
    requires Content(s) && s'.net.clients == s.net.clients[c := st] && s'.topics == s.topics
    requires s'.subs.loops == s.subs.loops && |st.chan.buffer| <= SEND_BUFFER
    requires forall p :: Has(st, p) && p.ActionMsg? ==> c in s.net.clients && Has(s.net.clients[c], p)
    ensures NoNews(s, s')
  {
    forall d | d in s.net.clients ensures |s.net.clients[d].chan.buffer| <= SEND_BUFFER {
      Bounded(s, d);
    }
  }

  lemma DrainNoNews(s: Hub, c: Client)
    requires Content(s)
    ensures NoNews(s, s.(net := DoDrain(s.net, c)))
  {
    hide Content, NoNews;
    var s' := s.(net := DoDrain(s.net, c));
    if c in s.net.clients && s.net.clients[c].chan.buffer != [] {
      Bounded(s, c);
      OneClientNoNews(s, s', c, s'.net.clients[c]);
    } else {
      SameClientsNoNews(s, s');
    }
  }

  lemma ReplyNoNews(s: Hub, c: Client, p: Payload)
    requires Content(s)
    ensures NoNews(s, DoReply(s, c, p))
  {
    hide Content, NoNews;
    var s' := DoReply(s, c, p);
    if c in s.net.clients && !p.ActionMsg? && s.net.clients[c].chan.open {
      Bounded(s, c);
      OneClientNoNews(s, s', c, s'.net.clients[c]);
    } else {
      SameClientsNoNews(s, s');
    }
  }

  lemma ClientNoNews(s: Hub, ev: ClientEvent)
    requires Content(s)
    ensures NoNews(s, ClientStep(s, ev))
  {
    hide Content, NoNews, DoDrain, DoReply;
    var s' := ClientStep(s, ev);
    match ev
    case Drain(c) => DrainNoNews(s, c);
    case Reply(c, p) => ReplyNoNews(s, c, p);
    case SendAction(_) => SameClientsNoNews(s, s');
    case Leave(_) => SameClientsNoNews(s, s');
    case Connect(c) =>
      if c in s.net.clients {
        SameClientsNoNews(s, s');
      } else {
        OneClientNoNews(s, s', c, s'.net.clients[c]);
      }
  }

  lemma ReceiveContent(s: Hub, l: nat, at: nat)
    requires Content(s)
    ensures Content(DoReceive(s, l, at))
  {
    var s' := DoReceive(s, l, at);
    forall c | c in s'.net.clients ensures Told(s', c) {
      assert Told(s, c);
    }
    forall k | k in s'.subs.loops ensures LoopOk(s', k) {
      assert LoopOk(s, k);
    }
  }

  lemma SendToContent(s: Hub, l: nat, c: Client)
    requires Content(s) && Membership.LoopsOk(s)
    ensures Content(DoSendTo(s, l, c))
  {
    var s' := DoSendTo(s, l, c);
    if MaySend(s, l, c) {
      assert LoopOk(s, l) && Told(s, c);
      assert c.roomID == s.subs.loops[l].room;
      forall d | d in s'.net.clients ensures Told(s', d) {
        assert Told(s, d);
      }
      forall k | k in s'.subs.loops ensures LoopOk(s', k) {
        assert LoopOk(s, k);
      }
    }
  }

  lemma ProcessNoNews(s: Hub)
    requires Content(s)
    ensures NoNews(s, DoProcess(s))
  {
    hide AddClient, RemoveClient, IsRegistered, Content;
    var s' := DoProcess(s);
    assert s'.topics == s.topics && s'.subs.loops == s.subs.loops && s'.net.clients.Keys == s.net.clients.Keys;
    forall c | c in s'.net.clients
      ensures |s'.net.clients[c].chan.buffer| <= SEND_BUFFER
      ensures forall p :: Has(s'.net.clients[c], p) && p.ActionMsg? ==> Has(s.net.clients[c], p)
    {
      Bounded(s, c);
      assert s'.net.clients[c].chan == s.net.clients[c].chan || s'.net.clients[c].chan == Retire(s.net.clients[c].chan);
      assert s'.net.clients[c].written == s.net.clients[c].written;
    }
  }

  lemma PhaseQuiet(u: Subs, l: nat)
    ensures LoopsQuiet(u.loops, DoFinish(u, l).loops) && LoopsQuiet(u.loops, DoObserve(u, l).loops)
    ensures LoopsQuiet(u.loops, DoDie(u, l).loops) && LoopsQuiet(u.loops, DoFinalDelete(u, l).loops)
  {
  }

  lemma MainQuiet(u: Subs, l: nat, cursor: nat)
    ensures LoopsQuiet(u.loops, DoSubscribe(u, l, cursor).loops)
    ensures LoopsQuiet(u.loops, DoUnsubscribe(u).loops) && LoopsQuiet(u.loops, DoStopAll(u).loops)
  {
  }

  lemma OtherNoNews(s: Hub, ev: Event)
    requires Content(s) && !ev.OnClient? && (ev.OnLoop? ==> !ev.le.Receive? && !ev.le.SendTo?)
    requires ev.OnMain? ==> !ev.me.Process?
    ensures NoNews(s, Step(s, ev))
  {
    hide Content, NoNews, LoopsQuiet, DoFinish, DoObserve, DoDie, DoFinalDelete, DoSubscribe, DoUnsubscribe, DoStopAll;
    QuietItself(s.subs.loops);
    var l := if ev.OnLoop? then ev.le.l else if ev.OnMain? && ev.me.Subscribe? then ev.me.l else 0;
    PhaseQuiet(s.subs, l);
    MainQuiet(s.subs, l, Cursor(s));
    SameClientsNoNews(s, Step(s, ev));
  }

  lemma QuietItself(loops: map<nat, Loop>)
    ensures LoopsQuiet(loops, loops)
  {
  }

  lemma StepContent(s: Hub, ev: Event)
    requires Content(s) && Membership.LoopsOk(s) && s.crash.NoCrash?
    ensures Content(Step(s, ev))
  {
    hide Content, Membership.LoopsOk, NoNews, ClientStep, DoReceive, DoSendTo, DoProcess;
    match ev
    case OnClient(e) => ClientNoNews(s, e); NoNewsKeeps(s, Step(s, ev));
    case OnLoop(Receive(l, at)) => ReceiveContent(s, l, at);
    case OnLoop(SendTo(l, c)) => SendToContent(s, l, c);
    case OnMain(Process) => ProcessNoNews(s); NoNewsKeeps(s, Step(s, ev));
    case _ => OtherNoNews(s, ev); NoNewsKeeps(s, Step(s, ev));
  }

  lemma {:induction false} RunContent(es: seq<Event>)
    ensures Content(Run(es))
  {
    if es != [] && Run(es[..|es| - 1]).crash.NoCrash? {
      RunContent(es[..|es| - 1]);
      Membership.RunKeeps(es[..|es| - 1]);
      StepContent(Run(es[..|es| - 1]), es[|es| - 1]);
    } else if es != [] {
      RunContent(es[..|es| - 1]);
    }
  }

  /** In every run a buffer holds at most 256 messages, and every action message a
      client was sent is a publication of its own room by another user. */
  lemma OnlyOwnRoomsActions(es: seq<Event>, c: Client)
    requires c in Run(es).net.clients
    ensures var s := Run(es);
      && |s.net.clients[c].chan.buffer| <= 256
      && forall p :: p in s.net.clients[c].written + s.net.clients[c].chan.buffer && p.ActionMsg? ==>
           && p.at < |TopicOf(s, c.roomID).published| && p.action == TopicOf(s, c.roomID).published[p.at]
           && p.action.userID != c.userID
  {
    RunContent(es);
    assert Told(Run(es), c);
    forall p | p in Run(es).net.clients[c].written + Run(es).net.clients[c].chan.buffer ensures Has(Run(es).net.clients[c], p) {
    }
  }

  // ----- the log of what entered a channel is what the channel holds ---------------

  function Indexes(ps: seq<Payload>): seq<nat> {
    if ps == [] then []
    else Indexes(ps[..|ps| - 1]) + (if ps[|ps| - 1].ActionMsg? then [ps[|ps| - 1].at] else [])
  }

  /** Until it is unregistered, a client's written and buffered action messages are
      exactly those that entered; before it is registered there are none. */
  ghost predicate Faithful(s: Hub, c: Client) {
    c in s.net.clients && c !in s.gone ==>
      var st := s.net.clients[c];
      && Indexes(st.written + st.chan.buffer) == st.entered
      && (!IsRegistered(s.net.rooms, c) ==> st.entered == [] && st.dropped == [])
  }

  lemma IndexesSnoc(ps: seq<Payload>, p: Payload)
    ensures Indexes(ps + [p]) == Indexes(ps) + if p.ActionMsg? then [p.at] else []
  {
    assert (ps + [p])[..|ps|] == ps;
  }

  lemma AppendFaithful(st: ClientState, p: Payload)
    ensures Indexes(st.written + (st.chan.buffer + [p])) ==
            Indexes(st.written + st.chan.buffer) + if p.ActionMsg? then [p.at] else []
  {
    assert st.written + (st.chan.buffer + [p]) == (st.written + st.chan.buffer) + [p];
    IndexesSnoc(st.written + st.chan.buffer, p);
  }

  lemma ClientFaithful(s: Hub, ev: ClientEvent, c: Client)
    requires Faithful(s, c) && Membership.Inv(s)
    ensures Faithful(ClientStep(s, ev), c)
  {
    hide Membership.Inv, Membership.QueueOk;
    match ev
    case Connect(d) =>
    case SendAction(d) =>
    case Leave(d) =>
    case Drain(d) =>
      if c == d && c in s.net.clients && s.net.clients[c].chan.buffer != [] {
        var st := s.net.clients[c];
        assert (st.written + [st.chan.buffer[0]]) + st.chan.buffer[1..] == st.written + st.chan.buffer;
      }
    case Reply(d, p) =>
      if c == d && c in s.net.clients {
        AppendFaithful(s.net.clients[c], p);
      }
  }

  /** What a step may do to a client without touching its logs or its membership. */
  ghost predicate Untouched(s: Hub, s': Hub, c: Client) {
    && (c in s'.net.clients <==> c in s.net.clients)
    && (c in s.net.clients ==> s'.net.clients[c] == s.net.clients[c])
    && (c in s'.gone <==> c in s.gone)
    && (IsRegistered(s'.net.rooms, c) <==> IsRegistered(s.net.rooms, c))
  }

  lemma UntouchedFaithful(s: Hub, s': Hub, c: Client)
    requires Faithful(s, c) && Untouched(s, s', c)
    ensures Faithful(s', c)
  {
  }

  lemma SendToFaithful(s: Hub, l: nat, d: Client, c: Client)
    requires Faithful(s, c) && Membership.LoopsOk(s)
    ensures Faithful(DoSendTo(s, l, d), c)
  {
    if MaySend(s, l, d) && c == d {
      assert IsRegistered(s.net.rooms, d);
      var at := s.subs.loops[l].phase.at;
      AppendFaithful(s.net.clients[c], ActionMsg(at, TopicOf(s, s.subs.loops[l].room).published[at]));
    } else {
      UntouchedFaithful(s, DoSendTo(s, l, d), c);
    }
  }

  lemma OtherMembers(rooms: map<nat, set<Client>>, c: Client, d: Client)
    requires c != d
    ensures IsRegistered(AddClient(rooms, c), d) <==> IsRegistered(rooms, d)
    ensures IsRegistered(RemoveClient(rooms, c), d) <==> IsRegistered(rooms, d)
    ensures !IsRegistered(RemoveClient(rooms, c), c)
  {
  }

  lemma ProcessUntouched(s: Hub, c: Client)
    ensures Untouched(s, DoProcess(s), c) || (MayProcess(s) && !s.net.queue[0].FromClient? && s.net.queue[0].c == c)
  {
    hide AddClient, RemoveClient, IsRegistered;
    if MayProcess(s) && s.net.queue[0].c != c {
      OtherMembers(s.net.rooms, s.net.queue[0].c, c);
    }
  }

  lemma ProcessFaithful(s: Hub, c: Client)
    requires Faithful(s, c)
    ensures Faithful(DoProcess(s), c)
  {
    hide AddClient, RemoveClient;
    ProcessUntouched(s, c);
    if Untouched(s, DoProcess(s), c) {
      UntouchedFaithful(s, DoProcess(s), c);
    } else if s.net.queue[0].Unregister? {
      assert c in DoProcess(s).gone;
    } else {
      assert IsRegistered(DoProcess(s).net.rooms, c) by { Added(s.net.rooms, c); }
      assert DoProcess(s).net.clients[c].entered == s.net.clients[c].entered;
    }
  }

  lemma Added(rooms: map<nat, set<Client>>, c: Client)
    ensures IsRegistered(AddClient(rooms, c), c)
  {
  }

  lemma StepFaithful(s: Hub, ev: Event, c: Client)
    requires Faithful(s, c) && Membership.Inv(s)
    ensures Faithful(Step(s, ev), c)
  {
    hide Membership.Inv, ClientStep, DoReceive, DoSendTo, DoProcess, Faithful;
    match ev
    case OnClient(e) => ClientFaithful(s, e, c);
    case OnLoop(SendTo(l, d)) => assert Membership.LoopsOk(s) by { LoopsAreOk(s); } SendToFaithful(s, l, d, c);
    case OnLoop(Receive(l, at)) => ReceiveUntouched(s, l, at, c); UntouchedFaithful(s, Step(s, ev), c);
    case OnMain(Process) => ProcessFaithful(s, c);
    case _ => UntouchedFaithful(s, Step(s, ev), c);
  }

  lemma LoopsAreOk(s: Hub)
    requires Membership.Inv(s)
    ensures Membership.LoopsOk(s) && Membership.RoomsOk(s)
  {
  }

  lemma ReceiveUntouched(s: Hub, l: nat, at: nat, c: Client)
    ensures Untouched(s, DoReceive(s, l, at), c)
  {
  }

  lemma {:induction false} RunFaithful(es: seq<Event>, c: Client)
    ensures Faithful(Run(es), c)
  {
    if es != [] {
      RunFaithful(es[..|es| - 1], c);
      Membership.RunKeeps(es[..|es| - 1]);
      StepFaithful(Run(es[..|es| - 1]), es[|es| - 1], c);
    }
  }

  lemma {:induction false} IndexesAppend(ps: seq<Payload>, qs: seq<Payload>)
    ensures Indexes(ps + qs) == Indexes(ps) + Indexes(qs)
  {
    if qs == [] {
      assert ps + qs == ps;
    } else {
      IndexesAppend(ps, qs[..|qs| - 1]);
      assert ps + qs == (ps + qs[..|qs| - 1]) + [qs[|qs| - 1]];
      IndexesSnoc(ps + qs[..|qs| - 1], qs[|qs| - 1]);
    }
  }

  // ----- clients that have left ----------------------------------------------------

  /** All of it, or all but one element. */
  ghost predicate LessOne(got: seq<nat>, all: seq<nat>) {
    got == all || exists i :: 0 <= i < |all| && got == all[..i] + all[i + 1..]
  }

  function Holds(st: ClientState): seq<nat> {
    Indexes(st.written + st.chan.buffer)
  }

  /** What a client was written or holds is what entered, but for the one message its
      unregistration may have taken. */
  ghost predicate Kept(s: Hub, c: Client) {
    c in s.net.clients ==> LessOne(Holds(s.net.clients[c]), s.net.clients[c].entered)
  }

  lemma RetireTakesOne(st: ClientState)
    requires Holds(st) == st.entered
    ensures LessOne(Holds(Retired(st)), st.entered)
  {
    var w, b := st.written, st.chan.buffer;
    if b != [] {
      assert w + b == (w + [b[0]]) + b[1..];
      IndexesAppend(w + [b[0]], b[1..]);
      IndexesAppend(w, b[1..]);
      IndexesSnoc(w, b[0]);
      if b[0].ActionMsg? {
        var i := |Indexes(w)|;
        assert st.entered[..i] == Indexes(w) && st.entered[i + 1..] == Indexes(b[1..]);
      }
    }
  }

  lemma ClientHolds(s: Hub, ev: ClientEvent, c: Client)
    requires c in s.net.clients
    ensures c in ClientStep(s, ev).net.clients
    ensures var st, st' := s.net.clients[c], ClientStep(s, ev).net.clients[c];
      Holds(st') == Holds(st) && st'.entered == st.entered
  {
    match ev
    case Connect(d) =>
    case SendAction(d) =>
    case Leave(d) =>
    case Drain(d) =>
      if c == d && s.net.clients[c].chan.buffer != [] {
        var st := s.net.clients[c];
        assert (st.written + [st.chan.buffer[0]]) + st.chan.buffer[1..] == st.written + st.chan.buffer;
      }
    case Reply(d, p) =>
      if c == d {
        AppendFaithful(s.net.clients[c], p);
      }
  }

  lemma ProcessHolds(s: Hub, c: Client)
    requires c in s.net.clients && Kept(s, c) && Faithful(s, c) && Membership.Inv(s)
    ensures Kept(DoProcess(s), c)
  {
    hide AddClient, RemoveClient, Membership.QueueOk, Membership.SweepOk, Membership.LoopsOk;
    ProcessUntouched(s, c);
    if !Untouched(s, DoProcess(s), c) && s.net.queue[0].Unregister? && IsRegistered(s.net.rooms, c) {
      assert c !in s.gone;
      RetireTakesOne(s.net.clients[c]);
    }
  }

  lemma GoneStepKept(s: Hub, ev: Event, c: Client)
    requires c in s.net.clients && Kept(s, c) && Faithful(s, c) && Membership.Inv(s) && s.crash.NoCrash?
    requires c in s.gone || ev == OnMain(Process)
    ensures Kept(Step(s, ev), c)
  {
    hide Membership.Inv, ClientStep, DoReceive, DoSendTo, DoProcess, Kept, Faithful;
    match ev
    case OnClient(e) => ClientHolds(s, e, c); SameKept(s, Step(s, ev), c);
    case OnMain(Process) => ProcessHolds(s, c);
    case OnLoop(SendTo(l, d)) => GoneUnsent(s, l, d, c); SameKept(s, Step(s, ev), c);
    case OnLoop(Receive(l, at)) => ReceiveUntouched(s, l, at, c); SameKept(s, Step(s, ev), c);
    case _ => SameKept(s, Step(s, ev), c);
  }

  lemma SameKept(s: Hub, s': Hub, c: Client)
    requires c in s.net.clients && c in s'.net.clients && Kept(s, c)
    requires Holds(s'.net.clients[c]) == Holds(s.net.clients[c])
    requires s'.net.clients[c].entered == s.net.clients[c].entered
    ensures Kept(s', c)
  {
  }

  lemma GoneUnsent(s: Hub, l: nat, d: Client, c: Client)
    requires c in s.net.clients && c in s.gone && Membership.Inv(s)
    ensures c in DoSendTo(s, l, d).net.clients && DoSendTo(s, l, d).net.clients[c] == s.net.clients[c]
  {
    if MaySend(s, l, d) {
      assert IsRegistered(s.net.rooms, d);
    }
  }

  lemma {:induction false} RunKept(es: seq<Event>, c: Client)
    ensures Kept(Run(es), c)
  {
    if es != [] {
      var before, ev := es[..|es| - 1], es[|es| - 1];
      RunKept(before, c);
      RunFaithful(before, c);
      RunFaithful(es, c);
      Membership.RunKeeps(before);
      if c in Run(es).gone && Run(before).crash.NoCrash? {
        GoneBefore(Run(before), ev, c);
        GoneStepKept(Run(before), ev, c);
      }
    }
  }

  lemma GoneBefore(s: Hub, ev: Event, c: Client)
    requires c in Step(s, ev).gone && Membership.Inv(s)
    ensures c in s.gone || ev == OnMain(Process)
    ensures c in s.net.clients
  {
  }
}
