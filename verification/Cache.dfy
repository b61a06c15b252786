/** What the snapshot cache may serve, under every interleaving of generations,
    warm-ups from the database, expiry and cleanup. */
module Cache {
  import opened Wrappers
  import opened Domain
  import opened RoomMachine

  ghost predicate IsSaved(p: Snaps, snap: Snapshot) {
    exists i :: 0 <= i < |p.saved| && p.saved[i].snap == snap
  }

  ghost predicate IsPending(p: Snaps, snap: Snapshot) {
    exists w :: w in p.writes && p.writes[w] == snap
  }

  /** Everything written, to be written, given up or served came from the table. */
  ghost predicate OnlySaved(p: Snaps) {
    && (forall w :: w in p.writes ==> IsSaved(p, p.writes[w]))
    && (forall x :: x in p.wrote ==> IsSaved(p, x))
    && (forall q :: q in p.queries && p.queries[q].Served? ==> IsSaved(p, p.queries[q].snap))
  }

  /** A saved snapshot's cache write is pending, done, or has failed. */
  ghost predicate NoneForgotten(p: Snaps) {
    forall i :: 0 <= i < |p.saved| ==>
      var x := p.saved[i].snap;
      x in p.wrote || x in p.unwritten || IsPending(p, x)
  }

  /** A present entry is the last one written. */
  ghost predicate SlotOk(s: Room) {
    s.redis.cache.Some? ==>
      s.snaps.wrote != [] && s.redis.cache.value == s.snaps.wrote[|s.snaps.wrote| - 1]
  }

  ghost predicate Inv(s: Room) {
    s.logs != [] && OnlySaved(s.snaps) && NoneForgotten(s.snaps) && SlotOk(s)
  }

  lemma SavedStays(p: Snaps, p': Snaps)
    requires p.saved <= p'.saved
    ensures forall x :: IsSaved(p, x) ==> IsSaved(p', x)
  {
    forall x | IsSaved(p, x)
      ensures IsSaved(p', x)
    {
      var i :| 0 <= i < |p.saved| && p.saved[i].snap == x;
      assert p'.saved[i] == p.saved[i];
    }
  }

  lemma SaveKeeps(s: Room, g: nat, w: nat, r: Reply)
    requires Inv(s)
    ensures Inv(s.(snaps := DoSave(s.snaps, g, w, r)))
  {
    var p, p' := s.snaps, DoSave(s.snaps, g, w, r);
    SavedStays(p, p');
    if p' != p && r.Executed() {
      var x := p'.saved[|p.saved|].snap;
      assert IsSaved(p', x);
      assert r.Answered? ==> w in p'.writes && p'.writes[w] == x;
    }
    PendingStays(p, p');
  }

  lemma PendingStays(p: Snaps, p': Snaps)
    requires forall w :: w in p.writes ==> w in p'.writes && p'.writes[w] == p.writes[w]
    ensures forall x :: IsPending(p, x) ==> IsPending(p', x)
  {
    forall x | IsPending(p, x)
      ensures IsPending(p', x)
    {
      var w :| w in p.writes && p.writes[w] == x;
      assert p'.writes[w] == x;
    }
  }

  lemma WriteKeeps(s: Room, w: nat, r: Reply)
    requires Inv(s)
    ensures Inv(DoWriteCache(s, w, r))
  {
    var s' := DoWriteCache(s, w, r);
    var p, p' := s.snaps, s'.snaps;
    SavedStays(p, p');
    if w in p.writes {
      var x := p.writes[w];
      if r.Executed() {
        assert p'.wrote[|p.wrote|] == x;
      }
      forall y | IsPending(p, y) && y != x
        ensures IsPending(p', y)
      {
        var v :| v in p.writes && p.writes[v] == y;
        assert v in p'.writes;
      }
    }
  }

  /** Row `i` is one of the newest, and the first of these. */
  ghost predicate FirstNewest(saved: seq<Taken>, i: int) {
    && 0 <= i < |saved|
    && (forall j :: 0 <= j < |saved| ==> saved[j].snap.createdAt <= saved[i].snap.createdAt)
    && (forall j :: 0 <= j < i ==> saved[j].snap.createdAt < saved[i].snap.createdAt)
  }

  lemma FirstNewestSnoc(saved: seq<Taken>, i: int)
    requires |saved| > 1 && FirstNewest(saved[..|saved| - 1], i)
    ensures var n := |saved| - 1; FirstNewest(saved, if saved[n].snap.createdAt > saved[i].snap.createdAt then n else i)
  {
    assert forall j :: 0 <= j < |saved| - 1 ==> saved[..|saved| - 1][j] == saved[j];
  }

  /** The row read is the first of the newest ones saved. */
  lemma {:induction false} LatestIsNewest(saved: seq<Taken>)
    requires saved != []
    ensures exists i :: FirstNewest(saved, i) && saved[i].snap == Latest(saved)
    ensures forall i :: 0 <= i < |saved| ==> saved[i].snap.createdAt <= Latest(saved).createdAt
  {
    var n := |saved| - 1;
    if n == 0 {
      assert FirstNewest(saved, 0);
    } else {
      hide Latest;
      LatestIsNewest(saved[..n]);
      var i :| FirstNewest(saved[..n], i) && saved[..n][i].snap == Latest(saved[..n]);
      FirstNewestSnoc(saved, i);
      var k := if saved[n].snap.createdAt > saved[i].snap.createdAt then n else i;
      LatestSnoc(saved);
      assert saved[k].snap == Latest(saved);
      assert forall j :: 0 <= j < |saved| ==> saved[j].snap.createdAt <= saved[k].snap.createdAt;
    }
  }

  lemma LatestSnoc(saved: seq<Taken>)
    requires |saved| > 1
    ensures var n, best := |saved| - 1, Latest(saved[..|saved| - 1]);
      Latest(saved) == if saved[n].snap.createdAt > best.createdAt then saved[n].snap else best
  {
  }

  lemma QueryKeeps(s: Room, q: nat, w: nat, ok: bool)
    requires Inv(s)
    ensures Inv(s.(snaps := DoQueryDatabase(s.snaps, q, w, ok)))
  {
    hide Latest, IsSaved, IsPending;
    var p, p' := s.snaps, DoQueryDatabase(s.snaps, q, w, ok);
    SavedStays(p, p');
    PendingStays(p, p');
    if p.saved != [] {
      LatestIsSaved(p);
    }
  }

  lemma LatestIsSaved(p: Snaps)
    requires p.saved != []
    ensures IsSaved(p, Latest(p.saved))
  {
    LatestIsNewest(p.saved);
  }

  lemma QueryCacheKeeps(s: Room, q: nat, ok: bool)
    requires Inv(s)
    ensures Inv(s.(snaps := DoQueryCache(s, q, ok)))
  {
    SavedStays(s.snaps, DoQueryCache(s, q, ok));
    PendingStays(s.snaps, DoQueryCache(s, q, ok));
  }

  /** A step that neither saves, writes nor serves. */
  lemma OtherStepsKeep(s: Room, s': Room)
    requires Inv(s) && s'.logs != []
    requires s'.redis.cache == s.redis.cache || s'.redis.cache == None
    requires s'.snaps == s.snaps.(gens := s'.snaps.gens, overlapped := s'.snaps.overlapped)
    ensures Inv(s')
  {
    SavedStays(s.snaps, s'.snaps);
    PendingStays(s.snaps, s'.snaps);
  }

  lemma StepKeeps(s: Room, ev: Event)
    requires Inv(s)
    ensures Inv(Step(s, ev))
  {
    match ev
    case OnSnapshot(Save(g, w, r)) => SaveKeeps(s, g, w, r);
    case OnSnapshot(WriteCache(w, r)) => WriteKeeps(s, w, r);
    case OnSnapshot(QueryCache(q, ok)) => QueryCacheKeeps(s, q, ok);
    case OnSnapshot(QueryDatabase(q, w, ok)) => QueryKeeps(s, q, w, ok);
    case _ => OtherStepsKeep(s, Step(s, ev));
  }

  lemma {:induction false} RunKeeps(start: Room, es: seq<Event>)
    requires Inv(start)
    ensures Inv(Run(start, es))
  {
    if es != [] {
      RunKeeps(start, es[..|es| - 1]);
      StepKeeps(Run(start, es[..|es| - 1]), es[|es| - 1]);
    }
  }

  lemma Always(s: Room)
    requires Reachable(s)
    ensures Inv(s)
  {
    var id, now, es :| s == Run(Init(id, now), es);
    RunKeeps(Init(id, now), es);
  }

  // ----- what the invariant means -------------------------------------------

  /** The cache holds, and a client is served, only what was saved for the room. */
  lemma ServesOnlySaved(s: Room)
    requires Reachable(s)
    ensures s.redis.cache.Some? ==> IsSaved(s.snaps, s.redis.cache.value)
    ensures forall q :: q in s.snaps.queries && s.snaps.queries[q].Served? ==> IsSaved(s.snaps, s.snaps.queries[q].snap)
  {
    Always(s);
  }

  /** One step gives the empty answer only by a database query that found no row. */
  lemma EmptyOnlyWhenNone(s: Room, ev: Event, q: nat)
    requires s.logs != []
    requires !(q in s.snaps.queries && s.snaps.queries[q].ServedEmpty?)
    requires q in Step(s, ev).snaps.queries && Step(s, ev).snaps.queries[q].ServedEmpty?
    ensures s.snaps.saved == [] && exists w :: ev == OnSnapshot(QueryDatabase(q, w, true))
  {
    hide FieldKey;
    assert ev.OnSnapshot? && ev.p.QueryDatabase? && ev.p.q == q && ev.p.ok;
    assert ev == OnSnapshot(QueryDatabase(q, ev.p.w, true));
  }

  predicate GotEmpty(s: Room, q: nat) {
    q in s.snaps.queries && s.snaps.queries[q].ServedEmpty?
  }

  lemma StartsUnserved(id: nat, now: int, q: nat)
    ensures !GotEmpty(Init(id, now), q)
  {
  }

  lemma NewlyEmpty(s: Room, ev: Event, q: nat)
    requires s.logs != [] && !GotEmpty(s, q) && GotEmpty(Step(s, ev), q)
    ensures s.snaps.saved == [] && exists w :: ev == OnSnapshot(QueryDatabase(q, w, true))
  {
    hide Step;
    EmptyOnlyWhenNone(s, ev, q);
  }

  /** A client that got the empty board got it from one event of the run: a database query
      that succeeded while no snapshot of the room had been saved yet. */
  lemma {:induction false} EmptyWasNone(id: nat, now: int, es: seq<Event>, q: nat) returns (n: nat)
    requires GotEmpty(Run(Init(id, now), es), q)
    ensures n < |es| && exists w :: es[n] == OnSnapshot(QueryDatabase(q, w, true))
    ensures var s := Run(Init(id, now), es[..n]);
      !GotEmpty(s, q) && GotEmpty(Step(s, es[n]), q) && s.snaps.saved == []
  {
    hide Step, GotEmpty;
    if es == [] {
      StartsUnserved(id, now, q);
    }
    var before := es[..|es| - 1];
    var s := Run(Init(id, now), before);
    assert Run(Init(id, now), es) == Step(s, es[|es| - 1]);
    if GotEmpty(s, q) {
      n := EmptyWasNone(id, now, before, q);
      assert before[..n] == es[..n];
    } else {
      n := |es| - 1;
      NewlyEmpty(s, es[n], q);
    }
  }

  ghost predicate DistinctTimes(saved: seq<Taken>) {
    forall i, j :: 0 <= i < j < |saved| ==> saved[i].snap.createdAt != saved[j].snap.createdAt
  }

  ghost predicate InTimeOrder(wrote: seq<Snapshot>) {
    forall i, j :: 0 <= i < j < |wrote| ==> wrote[i].createdAt <= wrote[j].createdAt
  }

  lemma LastWrittenIsLatest(p: Snaps)
    requires OnlySaved(p) && NoneForgotten(p) && p.wrote != []
    requires p.unwritten == {} && p.writes == map[]
    requires InTimeOrder(p.wrote) && DistinctTimes(p.saved)
    ensures p.saved != [] && p.wrote[|p.wrote| - 1] == Latest(p.saved)
  {
    hide Latest, FirstNewest;
    var n := |p.wrote| - 1;
    assert IsSaved(p, p.wrote[n]);
    LatestIsNewest(p.saved);
    LatestIsSaved(p);
    var i :| 0 <= i < |p.saved| && p.saved[i].snap == p.wrote[n];
    var j :| 0 <= j < |p.saved| && p.saved[j].snap == Latest(p.saved);
    assert !IsPending(p, p.saved[j].snap);
    var k :| 0 <= k < |p.wrote| && p.wrote[k] == p.saved[j].snap;
    assert p.wrote[k].createdAt <= p.wrote[n].createdAt;
  }

  /** If no cache write failed, they were done in CreatedAt order and none is
      pending, then a present cache entry is what the database would answer. */
  lemma QuietCacheIsLatest(s: Room)
    requires Reachable(s) && s.redis.cache.Some?
    requires s.snaps.unwritten == {} && s.snaps.writes == map[]
    requires InTimeOrder(s.snaps.wrote) && DistinctTimes(s.snaps.saved)
    ensures s.snaps.saved != [] && s.redis.cache.value == Latest(s.snaps.saved)
  {
    Always(s);
    LastWrittenIsLatest(s.snaps);
  }
}
