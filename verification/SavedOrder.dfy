/** When the generations of a room do not overlap, the order of CreatedAt is the
    order of versions, so the newest row carries the highest saved version. */
module SavedOrder {
  import opened Wrappers
  import opened Domain
  import opened RoomMachine
  import Cache

  /** `b` was read no earlier than `a`. */
  predicate NoLater(a: VersionRead, b: VersionRead) {
    a.epoch <= b.epoch && (a.epoch == b.epoch ==> a.version <= b.version)
  }

  ghost predicate Alone(p: Snaps) {
    forall g, h :: g in p.gens && h in p.gens && !p.gens[g].GenDone? && !p.gens[h].GenDone? ==> g == h
  }

  /** The saved rows are in order of version reads and of clock, and so is whatever
      generation is under way. */
  ghost predicate Ordered(p: Snaps) {
    && (forall i, j :: 0 <= i < j < |p.saved| ==>
          NoLater(p.saved[i].v, p.saved[j].v) && p.saved[i].snap.createdAt <= p.saved[j].snap.createdAt)
    && (forall i, g :: 0 <= i < |p.saved| && g in p.gens && p.gens[g].HasVersion? ==>
          NoLater(p.saved[i].v, p.gens[g].v))
    && (forall i, g :: 0 <= i < |p.saved| && g in p.gens && p.gens[g].Stamped? ==>
          && NoLater(p.saved[i].v, p.gens[g].taken.v)
          && p.saved[i].snap.createdAt <= p.gens[g].taken.snap.createdAt)
  }

  function Here(s: Room): VersionRead
    requires s.logs != []
  {
    VersionRead(Epoch(s), |Log(s)|, s.redis.version)
  }

  ghost predicate TakenBy(t: Taken, now: int, here: VersionRead) {
    NoLater(t.v, here) && t.snap.createdAt <= now && t.snap.version == t.v.version
  }

  /** Nothing was read from the future or stamped by it. */
  ghost predicate Past(p: Snaps, now: int, here: VersionRead) {
    && (forall i :: 0 <= i < |p.saved| ==> TakenBy(p.saved[i], now, here))
    && (forall g :: g in p.gens && p.gens[g].HasVersion? ==> NoLater(p.gens[g].v, here))
    && (forall g :: g in p.gens && p.gens[g].Stamped? ==> TakenBy(p.gens[g].taken, now, here))
  }

  ghost predicate Inv(s: Room) {
    s.logs != [] && Past(s.snaps, s.now, Here(s)) && (!s.snaps.overlapped ==> Alone(s.snaps) && Ordered(s.snaps))
  }

  /** Time and the epoch's counter only move forward. */
  lemma ForwardKeeps(s: Room, s': Room)
    requires Inv(s) && s'.logs != [] && s'.now >= s.now && s'.snaps == s.snaps
    requires Epoch(s') > Epoch(s) || (Epoch(s') == Epoch(s) && s'.redis.version >= s.redis.version)
    ensures Inv(s')
  {
  }

  lemma ReadBoardKeeps(s: Room, g: nat, ok: bool)
    requires Inv(s)
    ensures Inv(s.(snaps := DoReadBoard(s, g, ok)))
  {
    hide FieldKey;
    var p, p' := s.snaps, DoReadBoard(s, g, ok);
    if !p'.overlapped && p' != p {
      assert forall h :: h in p.gens ==> p.gens[h].GenDone?;
    }
  }

  lemma ReadVersionKeeps(s: Room, g: nat, ok: bool)
    requires Inv(s)
    ensures Inv(s.(snaps := DoReadVersion(s, g, ok)))
  {
  }

  lemma StampKeeps(s: Room, g: nat)
    requires Inv(s)
    ensures Inv(s.(snaps := DoStamp(s, g)))
  {
  }

  lemma SaveKeepsOrder(p: Snaps, g: nat, w: nat, r: Reply)
    requires Alone(p) && Ordered(p)
    ensures Alone(DoSave(p, g, w, r)) && Ordered(DoSave(p, g, w, r))
  {
    var p' := DoSave(p, g, w, r);
    if p' != p {
      assert forall h :: h in p'.gens ==> p'.gens[h].GenDone?;
    }
  }

  lemma SaveKeepsPast(p: Snaps, g: nat, w: nat, r: Reply, now: int, here: VersionRead)
    requires Past(p, now, here)
    ensures Past(DoSave(p, g, w, r), now, here)
  {
  }

  lemma SaveKeeps(s: Room, g: nat, w: nat, r: Reply)
    requires Inv(s)
    ensures Inv(s.(snaps := DoSave(s.snaps, g, w, r)))
  {
    SaveKeepsPast(s.snaps, g, w, r, s.now, Here(s));
    if !s.snaps.overlapped {
      SaveKeepsOrder(s.snaps, g, w, r);
    }
  }

  lemma OtherStepsKeep(s: Room, s': Room)
    requires Inv(s) && s'.logs == s.logs && s'.now == s.now && s'.redis.version == s.redis.version
    requires s'.snaps.gens == s.snaps.gens && s'.snaps.saved == s.snaps.saved
    requires s'.snaps.overlapped == s.snaps.overlapped
    ensures Inv(s')
  {
  }

  lemma SnapshotKeeps(s: Room, ev: SnapshotEvent)
    requires Inv(s)
    ensures Inv(SnapshotStep(s, ev))
  {
    match ev
    case ReadBoard(g, ok) => ReadBoardKeeps(s, g, ok);
    case ReadVersion(g, ok) => ReadVersionKeeps(s, g, ok);
    case Stamp(g) => StampKeeps(s, g);
    case Save(g, w, r) => SaveKeeps(s, g, w, r);
    case _ => OtherStepsKeep(s, SnapshotStep(s, ev));
  }

  lemma ActionForward(s: Room, ev: ActionEvent)
    requires s.logs != []
    ensures ActionStep(s, ev).redis.version >= s.redis.version
  {
    hide FieldKey;
  }

  lemma StepKeeps(s: Room, ev: Event)
    requires Inv(s)
    ensures Inv(Step(s, ev))
  {
    match ev
    case OnAction(a) =>
      ActionForward(s, a);
      ForwardKeeps(s, ActionStep(s, a));
    case OnSnapshot(p) => SnapshotKeeps(s, p);
    case Tick(d) => ForwardKeeps(s, Step(s, ev));
    case Cleanup => ForwardKeeps(s, CleanupStep(s));
  }

  lemma {:induction false} RunKeeps(start: Room, es: seq<Event>)
    requires Inv(start)
    ensures Inv(Run(start, es))
  {
    if es != [] {
      RunKeeps(start, es[..|es| - 1]);
      StepKeeps(Run(start, es[..|es| - 1]), es[|es| - 1]);
    }
  }

  lemma Always(s: Room)
    requires Reachable(s)
    ensures Inv(s)
  {
    var id, now, es :| s == Run(Init(id, now), es);
    RunKeeps(Init(id, now), es);
  }

  // ----- what the invariant means -------------------------------------------

  /** Without overlap, rows are saved in CreatedAt order, and within one epoch their
      versions never go down. */
  lemma VersionsFollowTime(s: Room, i: nat, j: nat)
    requires Reachable(s) && !s.snaps.overlapped
    requires i < j < |s.snaps.saved|
    ensures s.snaps.saved[i].snap.createdAt <= s.snaps.saved[j].snap.createdAt
    ensures s.snaps.saved[i].v.epoch == s.snaps.saved[j].v.epoch ==>
              s.snaps.saved[i].snap.version <= s.snaps.saved[j].snap.version
  {
    Always(s);
  }

  lemma {:induction false} LatestIsLast(saved: seq<Taken>)
    requires saved != []
    requires forall i, j :: 0 <= i < j < |saved| ==> saved[i].snap.createdAt < saved[j].snap.createdAt
    ensures Latest(saved) == saved[|saved| - 1].snap
  {
    var n := |saved| - 1;
    if n > 0 {
      LatestIsLast(saved[..n]);
      assert saved[n - 1].snap.createdAt < saved[n].snap.createdAt;
    }
  }

  /** With a strictly increasing clock, the row picked by created_at DESC has the
      highest version saved in its epoch. */
  lemma LatestHasHighestVersion(s: Room, i: nat)
    requires Reachable(s) && !s.snaps.overlapped && Cache.DistinctTimes(s.snaps.saved)
    requires i < |s.snaps.saved|
    ensures var n := |s.snaps.saved| - 1;
            && Latest(s.snaps.saved) == s.snaps.saved[n].snap
            && (s.snaps.saved[i].v.epoch == s.snaps.saved[n].v.epoch ==>
                  s.snaps.saved[i].snap.version <= Latest(s.snaps.saved).version)
  {
    Always(s);
    var saved := s.snaps.saved;
    forall j, k | 0 <= j < k < |saved|
      ensures saved[j].snap.createdAt < saved[k].snap.createdAt
    {
      assert saved[j].snap.createdAt != saved[k].snap.createdAt;
    }
    LatestIsLast(saved);
    if i < |saved| - 1 {
      VersionsFollowTime(s, i, |saved| - 1);
    }
  }
}
