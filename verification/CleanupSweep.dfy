/** The ping sweep: which clients it gets unregistered, and which it cannot. */
module CleanupSweep {
  import opened Clients
  import opened HubMachine
  import Membership
  import Delivery

  ghost predicate Queued(q: seq<HubMessage>, c: Client, bySweep: bool) {
    Unregister(c, bySweep) in q
  }

  /** Where a client that failed its ping can be. */
  ghost predicate Pursued(s: Hub, c: Client) {
    || (s.sweep.stage.Pinging? && c in s.sweep.stage.found)
    || (s.sweep.stage.Queueing? && c in s.sweep.stage.rest)
    || c in s.sweep.dropped || Queued(s.net.queue, c, true) || c in s.gone
  }

  ghost predicate SweepInv(s: Hub) {
    && (forall c :: c in s.sweep.failed ==> Pursued(s, c))
    && s.sweep.dropped <= s.sweep.failed
    && (s.sweep.stage.Pinging? ==>
          && (forall c :: c in s.sweep.stage.found ==> c in s.sweep.failed)
          && (forall c :: c in s.sweep.stage.todo ==> c !in s.sweep.failed))
    && (s.sweep.stage.Queueing? ==> forall c :: c in s.sweep.stage.rest ==> c in s.sweep.failed)
  }

  /** Steps outside the sweep: no sweep message is added, and none is lost but by
      unregistering its client. */
  ghost predicate Aside(s: Hub, s': Hub) {
    && s'.sweep == s.sweep && s.gone <= s'.gone
    && (forall i :: 0 <= i < |s'.net.queue| && s'.net.queue[i].Unregister? && s'.net.queue[i].bySweep ==>
          s'.net.queue[i] in s.net.queue)
    && (forall i :: 0 <= i < |s.net.queue| && s.net.queue[i].Unregister? && s.net.queue[i].bySweep ==>
          s.net.queue[i] in s'.net.queue || s.net.queue[i].c in s'.gone)
  }

  lemma AsideKeeps(s: Hub, s': Hub)
    requires SweepInv(s) && Aside(s, s')
    ensures SweepInv(s')
  {
    forall c | c in s'.sweep.failed ensures Pursued(s', c) {
      assert Pursued(s, c);
    }
  }

  lemma ProcessAside(s: Hub)
    ensures Aside(s, DoProcess(s))
  {
    hide AddClient, RemoveClient, IsRegistered;
    var s' := DoProcess(s);
    var q := s.net.queue;
    if MayProcess(s) {
      assert s'.net.queue == q[1..];
      forall i | 0 <= i < |q| && q[i].Unregister? ensures q[i] in s'.net.queue || q[i].c in s'.gone {
        if i > 0 {
          assert s'.net.queue[i - 1] == q[i];
        }
      }
    }
  }

  lemma PostAside(q: seq<HubMessage>, m: HubMessage)
    requires !(m.Unregister? && m.bySweep)
    ensures forall i :: 0 <= i < |Enqueue(q, m)| && Enqueue(q, m)[i].Unregister? && Enqueue(q, m)[i].bySweep ==>
              Enqueue(q, m)[i] in q
    ensures forall i :: 0 <= i < |q| ==> q[i] in Enqueue(q, m)
  {
    assert forall i :: 0 <= i < |q| ==> q[i] == Enqueue(q, m)[i];
  }

  lemma ClientAside(s: Hub, ev: ClientEvent)
    ensures Aside(s, ClientStep(s, ev))
  {
    hide Enqueue;
    var m := match ev case Connect(c) => Register(c) case Leave(c) => Unregister(c, false) case _ => FromClient(ev.c);
    PostAside(s.net.queue, m);
  }

  lemma QueueNextKeeps(s: Hub)
    requires SweepInv(s)
    ensures SweepInv(DoQueueNext(s))
  {
    var s' := DoQueueNext(s);
    if s.sweep.stage.Queueing? && s.sweep.stage.rest != [] {
      var rest := s.sweep.stage.rest;
      assert rest == [rest[0]] + rest[1..];
      forall c | c in s'.sweep.failed ensures Pursued(s', c) {
        assert Pursued(s, c);
        if Queued(s.net.queue, c, true) {
          var i :| 0 <= i < |s.net.queue| && s.net.queue[i] == Unregister(c, true);
          assert s'.net.queue[i] == Unregister(c, true);
        } else if c == rest[0] && |s.net.queue| < QUEUE {
          assert s'.net.queue[|s.net.queue|] == Unregister(c, true);
        }
      }
    }
  }

  lemma SweepStepKeeps(s: Hub, ev: SweepEvent)
    requires SweepInv(s)
    ensures SweepInv(SweepStep(s, ev))
  {
    hide Registered, DoQueueNext;
    var s' := SweepStep(s, ev);
    match ev
    case QueueNext => QueueNextKeeps(s);
    case Scan => assert forall c :: c in s'.sweep.failed ==> c in s.sweep.failed;
      forall c | c in s'.sweep.failed ensures Pursued(s', c) { assert Pursued(s, c); }
    case Ping(c, ok) =>
      forall d | d in s'.sweep.failed ensures Pursued(s', d) {
        if d in s.sweep.failed { assert Pursued(s, d); }
      }
    case Collect =>
      forall d | d in s'.sweep.failed ensures Pursued(s', d) { assert Pursued(s, d); }
  }

  lemma StepKeeps(s: Hub, ev: Event)
    requires SweepInv(s)
    ensures SweepInv(Step(s, ev))
  {
    hide SweepInv, Aside, ClientStep, DoProcess, SweepStep;
    match ev
    case OnClient(e) => ClientAside(s, e); AsideKeeps(s, Step(s, ev));
    case OnMain(Process) => ProcessAside(s); AsideKeeps(s, Step(s, ev));
    case OnSweep(e) => SweepStepKeeps(s, e);
    case _ => SameAside(s, Step(s, ev)); AsideKeeps(s, Step(s, ev));
  }

  lemma SameAside(s: Hub, s': Hub)
    requires s'.sweep == s.sweep && s'.gone == s.gone && s'.net.queue == s.net.queue
    ensures Aside(s, s')
  {
  }

  lemma {:induction false} RunKeeps(es: seq<Event>)
    ensures SweepInv(Run(es))
  {
    if es != [] {
      RunKeeps(es[..|es| - 1]);
      StepKeeps(Run(es[..|es| - 1]), es[|es| - 1]);
    }
  }

  // ----- what every run guarantees -----------------------------------------------

  /** Once the sweep has finished and the queue has been worked off, a client that failed
      its ping is registered only if its unregistration found the queue full. */
  lemma FailedClientsAreRemoved(es: seq<Event>, c: Client)
    requires var s := Run(es); s.sweep.stage.Resting? && s.net.queue == [] && c in s.sweep.failed
    ensures IsRegistered(Run(es).net.rooms, c) ==> c in Run(es).sweep.dropped
    ensures Run(es).sweep.dropped == {} ==> !IsRegistered(Run(es).net.rooms, c)
  {
    RunKeeps(es);
    Membership.RunKeeps(es);
    assert Pursued(Run(es), c);
  }

  lemma FailsNow(s: Hub, c: Client)
    requires s.crash.NoCrash? && s.sweep.stage.Pinging? && c in s.sweep.stage.todo
    ensures c in Step(s, OnSweep(Ping(c, false))).sweep.failed
  {
  }

  lemma FailedUntilScan(s: Hub, ev: Event, c: Client)
    requires c in s.sweep.failed && !(ev == OnSweep(Scan) && s.crash.NoCrash? && s.sweep.stage.Resting?)
    ensures c in Step(s, ev).sweep.failed
  {
  }

  lemma {:induction false} FailedSince(es: seq<Event>, i: nat, n: nat, c: Client)
    requires i < n <= |es| && es[i] == OnSweep(Ping(c, false))
    requires Run(es[..i]).crash.NoCrash? && Run(es[..i]).sweep.stage.Pinging? && c in Run(es[..i]).sweep.stage.todo
    requires forall k :: i < k < n ==> !ScanAt(es, k)
    ensures c in Run(es[..n]).sweep.failed
    decreases n
  {
    hide Step;
    assert es[..n][..n - 1] == es[..n - 1];
    if n == i + 1 {
      FailsNow(Run(es[..i]), c);
    } else {
      FailedSince(es, i, n - 1, c);
      assert !ScanAt(es, n - 1);
      FailedUntilScan(Run(es[..n - 1]), es[n - 1], c);
    }
  }

  /** From the failed ping to the end of its sweep: with the queue worked off and no
      later sweep begun, the client is out unless its unregistration was dropped. */
  lemma FailedPingLeadsOut(es: seq<Event>, i: nat, c: Client)
    requires i < |es| && es[i] == OnSweep(Ping(c, false))
    requires Run(es[..i]).crash.NoCrash? && Run(es[..i]).sweep.stage.Pinging? && c in Run(es[..i]).sweep.stage.todo
    requires forall k :: i < k < |es| ==> !ScanAt(es, k)
    requires Run(es).sweep.stage.Resting? && Run(es).net.queue == []
    ensures IsRegistered(Run(es).net.rooms, c) ==> c in Run(es).sweep.dropped
  {
    FailedSince(es, i, |es|, c);
    assert es[..|es|] == es;
    FailedClientsAreRemoved(es, c);
  }

  // ----- what the sweep cannot do -------------------------------------------------

  /** Event `j` begins a sweep. */
  ghost predicate ScanAt(es: seq<Event>, j: nat) {
    j < |es| && es[j] == OnSweep(Scan) && Run(es[..j]).crash.NoCrash? && Run(es[..j]).sweep.stage.Resting?
  }

  /** Event `i` is a ping of this client by the sweep under way. */
  ghost predicate PingAt(es: seq<Event>, i: nat, c: Client, ok: bool) {
    && i < |es| && es[i] == OnSweep(Ping(c, ok)) && Run(es[..i]).crash.NoCrash?
    && Run(es[..i]).sweep.stage.Pinging? && c in Run(es[..i]).sweep.stage.todo
  }

  /** Event `j` began the current sweep, which found this client registered, and has
      not seen a ping of it succeed. */
  ghost predicate Scanned(es: seq<Event>, j: nat, c: Client) {
    && ScanAt(es, j) && IsRegistered(Run(es[..j]).net.rooms, c)
    && forall k :: j < k < |es| ==> !ScanAt(es, k) && !PingAt(es, k, c, true)
  }

  /** The current sweep, begun with the client registered, saw its ping fail and no
      ping of it succeed. */
  ghost predicate FailedThisSweep(es: seq<Event>, c: Client) {
    exists j: nat, i: nat :: j < i < |es| && Scanned(es, j, c) && PingAt(es, i, c, false)
  }

  lemma SamePrefix(es: seq<Event>, n: nat, k: nat, c: Client)
    requires k < n <= |es|
    ensures ScanAt(es[..n], k) == ScanAt(es, k)
    ensures forall ok :: PingAt(es[..n], k, c, ok) == PingAt(es, k, c, ok)
    ensures es[..n][..k] == es[..k]
  {
    assert es[..n][..k] == es[..k];
  }

  /** A sweep goes on through any event that neither begins one nor pings the client. */
  lemma ScannedLonger(es: seq<Event>, j: nat, c: Client)
    requires es != [] && Scanned(es[..|es| - 1], j, c)
    requires !ScanAt(es, |es| - 1) && !PingAt(es, |es| - 1, c, true)
    ensures Scanned(es, j, c)
  {
    var n := |es| - 1;
    SamePrefix(es, n, j, c);
    forall k | j < k < |es| ensures !ScanAt(es, k) && !PingAt(es, k, c, true) {
      if k < n {
        SamePrefix(es, n, k, c);
      }
    }
  }

  /** Who is still to be pinged was registered when the sweep began, and its ping has
      not succeeded since. */
  lemma {:induction false} TodoWasScanned(es: seq<Event>, c: Client) returns (j: nat)
    requires Run(es).sweep.stage.Pinging? && c in Run(es).sweep.stage.todo
    ensures Scanned(es, j, c)
  {
    hide Scanned, Step;
    var n := |es| - 1;
    var before := es[..n];
    assert Run(es) == Step(Run(before), es[n]);
    Membership.RunKeeps(before);
    if Run(before).sweep.stage.Pinging? && c in Run(before).sweep.stage.todo {
      j := TodoWasScanned(before, c);
      StillTodo(Run(before), es[n], c);
      ScannedLonger(es, j, c);
    } else {
      j := n;
      NewTodo(Run(before), es[n], c);
      JustScanned(es, c);
    }
  }

  lemma JustScanned(es: seq<Event>, c: Client)
    requires es != [] && ScanAt(es, |es| - 1) && IsRegistered(Run(es[..|es| - 1]).net.rooms, c)
    ensures Scanned(es, |es| - 1, c)
  {
  }

  lemma StillTodo(s: Hub, ev: Event, c: Client)
    requires s.sweep.stage.Pinging? && c in s.sweep.stage.todo
    requires Step(s, ev).sweep.stage.Pinging? && c in Step(s, ev).sweep.stage.todo
    ensures s.crash.NoCrash? ==> ev != OnSweep(Ping(c, true)) && ev != OnSweep(Ping(c, false))
  {
  }

  lemma NewTodo(s: Hub, ev: Event, c: Client)
    requires Membership.Inv(s)
    requires Step(s, ev).sweep.stage.Pinging? && c in Step(s, ev).sweep.stage.todo
    requires !(s.sweep.stage.Pinging? && c in s.sweep.stage.todo)
    ensures ev == OnSweep(Scan) && s.crash.NoCrash? && s.sweep.stage.Resting? && IsRegistered(s.net.rooms, c)
  {
  }

  lemma {:induction false} FailedInSweep(es: seq<Event>, c: Client)
    requires c in Run(es).sweep.failed
    ensures FailedThisSweep(es, c)
  {
    hide Scanned, Step;
    var n := |es| - 1;
    var before := es[..n];
    assert Run(es) == Step(Run(before), es[n]);
    RunKeeps(before);
    if c in Run(before).sweep.failed {
      FailedInSweep(before, c);
      StaysFailed(Run(before), es[n], c);
      var j: nat, i: nat :| j < i < |before| && Scanned(before, j, c) && PingAt(before, i, c, false);
      SamePrefix(es, n, i, c);
      ScannedLonger(es, j, c);
      assert PingAt(es, i, c, false);
    } else {
      NewFailure(Run(before), es[n], c);
      var j := TodoWasScanned(before, c);
      ScannedLonger(es, j, c);
      assert PingAt(es, n, c, false);
      ScannedBefore(before, j, c);
    }
  }

  lemma ScannedBefore(es: seq<Event>, j: nat, c: Client)
    requires Scanned(es, j, c)
    ensures j < |es|
  {
  }

  lemma StaysFailed(s: Hub, ev: Event, c: Client)
    requires SweepInv(s) && c in s.sweep.failed && c in Step(s, ev).sweep.failed
    ensures !(s.crash.NoCrash? && s.sweep.stage.Resting? && ev == OnSweep(Scan))
    ensures !(s.sweep.stage.Pinging? && c in s.sweep.stage.todo)
  {
  }

  lemma NewFailure(s: Hub, ev: Event, c: Client)
    requires c !in s.sweep.failed && c in Step(s, ev).sweep.failed
    ensures ev == OnSweep(Ping(c, false)) && s.crash.NoCrash? && s.sweep.stage.Pinging? && c in s.sweep.stage.todo
  {
  }

  /** Event `n` is the sweep queueing this client's unregistration. */
  ghost predicate QueuesAt(es: seq<Event>, n: nat, c: Client) {
    && n < |es| && es[n] == OnSweep(QueueNext) && Run(es[..n]).crash.NoCrash?
    && Run(es[..n]).sweep.stage.Queueing? && Run(es[..n]).sweep.stage.rest != []
    && Run(es[..n]).sweep.stage.rest[0] == c
  }

  /** Whatever the sweep queues, it queues for a client that was registered when this
      sweep began, whose ping this sweep saw fail and never saw succeed. */
  lemma QueuesOnlyFailed(es: seq<Event>, n: nat, c: Client)
    requires QueuesAt(es, n, c)
    ensures FailedThisSweep(es[..n], c)
  {
    RunKeeps(es[..n]);
    FailedInSweep(es[..n], c);
  }

  /** And every message of the sweep that waits in the queue was put there so: the sweep
      removes no client whose ping succeeded, and none that came after its scan. */
  lemma {:induction false} SweepRemovesOnlyFailed(es: seq<Event>, c: Client) returns (n: nat)
    requires Queued(Run(es).net.queue, c, true)
    ensures QueuesAt(es, n, c) && FailedThisSweep(es[..n], c)
  {
    hide Step, FailedThisSweep;
    var before := es[..|es| - 1];
    assert Run(es) == Step(Run(before), es[|es| - 1]);
    if Queued(Run(before).net.queue, c, true) {
      n := SweepRemovesOnlyFailed(before, c);
      assert before[..n] == es[..n];
    } else {
      n := |es| - 1;
      NewlyQueued(Run(before), es[n], c);
      QueuesOnlyFailed(es, n, c);
    }
  }

  lemma NewlyQueued(s: Hub, ev: Event, c: Client)
    requires !Queued(s.net.queue, c, true) && Queued(Step(s, ev).net.queue, c, true)
    ensures s.crash.NoCrash? && ev == OnSweep(QueueNext) && s.sweep.stage.Queueing? && s.sweep.stage.rest != []
    ensures s.sweep.stage.rest[0] == c
  {
    hide AddClient, RemoveClient, IsRegistered;
  }

  ghost predicate PingedBetween(es: seq<Event>, j: nat, n: nat, c: Client) {
    exists i :: j < i < n <= |es| && (es[i] == OnSweep(Ping(c, true)) || es[i] == OnSweep(Ping(c, false)))
  }

  lemma {:induction false} TodoOrPinged(es: seq<Event>, j: nat, n: nat, c: Client)
    requires j < n <= |es| && es[j] == OnSweep(Scan)
    requires Run(es[..j]).crash.NoCrash? && Run(es[..j]).sweep.stage.Resting? && IsRegistered(Run(es[..j]).net.rooms, c)
    requires forall k :: j < k <= n ==> Run(es[..k]).sweep.stage.Pinging?
    ensures c in Run(es[..n]).sweep.stage.todo || PingedBetween(es, j, n, c)
    decreases n
  {
    hide Step, PingedBetween;
    assert es[..n][..n - 1] == es[..n - 1];
    var s := Run(es[..n - 1]);
    assert Run(es[..n]) == Step(s, es[n - 1]);
    if n == j + 1 {
      ScansMembers(s, c);
    } else {
      TodoOrPinged(es, j, n - 1, c);
      if PingedBetween(es, j, n - 1, c) {
        StillBetween(es, j, n, c);
      } else {
        LeavesTodo(s, es[n - 1], c);
        if c !in Run(es[..n]).sweep.stage.todo {
          JustPinged(es, j, n, c);
        }
      }
    }
  }

  lemma StillBetween(es: seq<Event>, j: nat, n: nat, c: Client)
    requires 0 < n <= |es| && PingedBetween(es, j, n - 1, c)
    ensures PingedBetween(es, j, n, c)
  {
  }

  lemma JustPinged(es: seq<Event>, j: nat, n: nat, c: Client)
    requires j < n - 1 < n <= |es| && (es[n - 1] == OnSweep(Ping(c, true)) || es[n - 1] == OnSweep(Ping(c, false)))
    ensures PingedBetween(es, j, n, c)
  {
  }

  lemma ScansMembers(s: Hub, c: Client)
    requires s.crash.NoCrash? && s.sweep.stage.Resting? && IsRegistered(s.net.rooms, c)
    ensures Step(s, OnSweep(Scan)).sweep.stage.Pinging? && c in Step(s, OnSweep(Scan)).sweep.stage.todo
  {
    assert c in Registered(s.net.rooms);
  }

  lemma LeavesTodo(s: Hub, ev: Event, c: Client)
    requires s.sweep.stage.Pinging? && c in s.sweep.stage.todo && Step(s, ev).sweep.stage.Pinging?
    ensures c in Step(s, ev).sweep.stage.todo || ev == OnSweep(Ping(c, true)) || ev == OnSweep(Ping(c, false))
  {
  }

  /** A sweep does not go on to queue unregistrations before it has pinged every client
      that was registered at its scan. */
  lemma SweepPingsEveryone(es: seq<Event>, j: nat, n: nat, c: Client)
    requires j < n < |es| && es[j] == OnSweep(Scan)
    requires Run(es[..j]).crash.NoCrash? && Run(es[..j]).sweep.stage.Resting? && IsRegistered(Run(es[..j]).net.rooms, c)
    requires forall k :: j < k <= n ==> Run(es[..k]).sweep.stage.Pinging?
    requires Run(es[..n + 1]).sweep.stage.Queueing?
    ensures PingedBetween(es, j, n, c)
  {
    TodoOrPinged(es, j, n, c);
    assert es[..n + 1][..n] == es[..n];
    EndsPinging(Run(es[..n]), es[n]);
  }

  lemma EndsPinging(s: Hub, ev: Event)
    requires s.sweep.stage.Pinging? && Step(s, ev).sweep.stage.Queueing?
    ensures s.sweep.stage.todo == {}
  {
  }

  /** An unregistration of the sweep is dropped only when 512 messages are waiting. */
  lemma DroppedOnlyWhenFull(es: seq<Event>, ev: Event, c: Client)
    requires c in Run(es + [ev]).sweep.dropped && c !in Run(es).sweep.dropped
    ensures ev == OnSweep(QueueNext) && |Run(es).net.queue| >= 512
  {
    Membership.RunSnoc(es, ev);
    NewlyDropped(Run(es), ev, c);
  }

  lemma NewlyDropped(s: Hub, ev: Event, c: Client)
    requires c in Step(s, ev).sweep.dropped && c !in s.sweep.dropped
    ensures ev == OnSweep(QueueNext) && |s.net.queue| >= 512
  {
  }

  ghost predicate NoUnregister(s: Hub, c: Client) {
    forall i :: 0 <= i < |s.net.queue| && s.net.queue[i].Unregister? ==> s.net.queue[i].c != c
  }

  lemma UnqueuedStep(s: Hub, m: MainEvent, c: Client)
    requires IsRegistered(s.net.rooms, c) && NoUnregister(s, c)
    ensures IsRegistered(MainStep(s, m).net.rooms, c) && NoUnregister(MainStep(s, m), c)
  {
    hide AddClient, RemoveClient, IsRegistered;
    if m.Process? && MayProcess(s) {
      assert MainStep(s, m).net.queue == s.net.queue[1..];
      Delivery.ProcessUntouched(s, c);
      if !Delivery.Untouched(s, DoProcess(s), c) {
        Delivery.Added(s.net.rooms, c);
      }
    }
  }

  function Mains(ms: seq<MainEvent>): (es: seq<Event>)
    ensures |es| == |ms|
  {
    if ms == [] then [] else Mains(ms[..|ms| - 1]) + [OnMain(ms[|ms| - 1])]
  }

  /** A client whose unregistration was dropped stays, whatever the hub processes. */
  lemma {:induction false} UnqueuedClientsRemain(es: seq<Event>, ms: seq<MainEvent>, c: Client)
    requires IsRegistered(Run(es).net.rooms, c) && NoUnregister(Run(es), c)
    ensures IsRegistered(Run(es + Mains(ms)).net.rooms, c) && NoUnregister(Run(es + Mains(ms)), c)
  {
    if ms == [] {
      assert es + Mains(ms) == es;
    } else {
      var most := ms[..|ms| - 1];
      UnqueuedClientsRemain(es, most, c);
      assert es + Mains(ms) == (es + Mains(most)) + [OnMain(ms[|ms| - 1])];
      Membership.RunSnoc(es + Mains(most), OnMain(ms[|ms| - 1]));
      UnqueuedStep(Run(es + Mains(most)), ms[|ms| - 1], c);
    }
  }

  // ----- a run that drops an unregistration -------------------------------------------

  /** Only action messages of this client wait in the queue. */
  ghost predicate Waiting(s: Hub, c: Client, n: nat) {
    |s.net.queue| == n && forall i :: 0 <= i < n ==> s.net.queue[i] == FromClient(c)
  }

  ghost predicate SameButQueue(s: Hub, s': Hub) {
    s' == s.(net := s.net.(queue := s'.net.queue))
  }

  lemma {:induction false} FillQueue(es: seq<Event>, c: Client, n: nat) returns (more: seq<Event>)
    requires Run(es).crash.NoCrash? && c in Run(es).net.clients && Run(es).net.queue == [] && n <= QUEUE
    ensures SameButQueue(Run(es), Run(es + more)) && Waiting(Run(es + more), c, n)
    decreases n
  {
    if n == 0 {
      more := [];
      assert es + more == es;
    } else {
      var most := FillQueue(es, c, n - 1);
      more := most + [OnClient(SendAction(c))];
      assert es + more == (es + most) + [OnClient(SendAction(c))];
      Membership.RunSnoc(es + most, OnClient(SendAction(c)));
    }
  }

  lemma {:induction false} WorkOff(es: seq<Event>, c: Client, n: nat) returns (more: seq<Event>)
    requires Run(es).crash.NoCrash? && c in Run(es).net.clients && Run(es).subs.pc.Idle? && Waiting(Run(es), c, n)
    ensures SameButQueue(Run(es), Run(es + more)) && Run(es + more).net.queue == []
    decreases n
  {
    if n == 0 {
      more := [];
      assert es + more == es;
    } else {
      Membership.RunSnoc(es, OnMain(Process));
      var es1 := es + [OnMain(Process)];
      assert Run(es1).net.queue == Run(es).net.queue[1..];
      var rest := WorkOff(es1, c, n - 1);
      more := [OnMain(Process)] + rest;
      assert es + more == es1 + rest;
    }
  }

  /** A sweep has found its only client dead and is about to say so. */
  lemma FoundDead(c: Client) returns (es: seq<Event>)
    ensures var s := Run(es);
      && s.net.rooms == map[c.roomID := {c}] && c in s.net.clients && s.net.queue == [] && s.subs.pc == Idle
      && s.crash == NoCrash && s.sweep == Sweep(Queueing([c]), {c}, {})
  {
    var scan, ping, collect := OnSweep(Scan), OnSweep(Ping(c, false)), OnSweep(Collect);
    es := Membership.Joined(c);
    var s := Run(es);
    assert c in s.net.rooms[c.roomID];
    assert Registered(s.net.rooms) == {c};
    var s1 := Step(s, scan);
    assert s1.sweep.stage == Pinging({c}, []);
    var s2 := Step(s1, ping);
    assert s2.sweep.stage.todo == {} && s2.sweep.stage.found == [c] && s2.sweep.failed == {c};
    Membership.RunSnoc(es, scan);
    Membership.RunSnoc(es + [scan], ping);
    Membership.RunSnoc(es + [scan] + [ping], collect);
    es := es + [scan] + [ping] + [collect];
  }

  lemma Drops(s: Hub, c: Client)
    requires s.crash.NoCrash? && |s.net.queue| == QUEUE && s.sweep == Sweep(Queueing([c]), {c}, {})
    ensures var s' := Step(Step(s, OnSweep(QueueNext)), OnSweep(QueueNext));
      s' == s.(sweep := Sweep(Resting, {c}, {c}))
  {
    assert [c][1..] == [];
  }

  /** With 512 messages waiting, a sweep ends and the queue is worked off, and the client
      whose ping failed is still registered. */
  lemma DropHappens(c: Client) returns (es: seq<Event>)
    ensures var s := Run(es);
      && s.sweep == Sweep(Resting, {c}, {c}) && s.net.queue == [] && IsRegistered(s.net.rooms, c)
  {
    var dead := FoundDead(c);
    var fill := FillQueue(dead, c, QUEUE);
    es := dead + fill;
    Drops(Run(es), c);
    Membership.RunSnoc(es, OnSweep(QueueNext));
    Membership.RunSnoc(es + [OnSweep(QueueNext)], OnSweep(QueueNext));
    es := es + [OnSweep(QueueNext)] + [OnSweep(QueueNext)];
    var rest := WorkOff(es, c, QUEUE);
    es := es + rest;
  }
}
