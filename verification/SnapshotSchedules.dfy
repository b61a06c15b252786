/** Undisturbed calls of the snapshot service are stretches of a run of the room machine. */
module SnapshotSchedules {
  import opened Wrappers
  import opened Domain
  import opened SnapshotService
  import Cache
  import R = RoomMachine

  /** ReadBoard, ReadVersion and Stamp of one goroutine with nobody between them. */
  function Reading(s: R.Room, g: nat, x: Generation): (s': R.Room)
    requires s.logs != []
    ensures s'.logs != []
  {
    var s1 := R.Step(s, R.OnSnapshot(R.ReadBoard(g, x.board.Answered?)));
    R.Step(R.Step(s1, R.OnSnapshot(R.ReadVersion(g, x.version.Answered?))), R.OnSnapshot(R.Stamp(g)))
  }

  /** Then Save. */
  function Alone(s: R.Room, g: nat, w: nat, x: Generation): (s': R.Room)
    requires s.logs != []
    ensures s'.logs != []
  {
    R.Step(Reading(s, g, x), R.OnSnapshot(R.Save(g, w, x.save)))
  }

  lemma AloneReachable(s: R.Room, g: nat, w: nat, x: Generation)
    requires R.Reachable(s)
    ensures R.Reachable(Alone(s, g, w, x))
  {
    hide R.Step;
    var e1, e2 := R.OnSnapshot(R.ReadBoard(g, x.board.Answered?)), R.OnSnapshot(R.ReadVersion(g, x.version.Answered?));
    R.StepReachable(s, e1);
    R.StepReachable(R.Step(s, e1), e2);
    R.StepReachable(R.Step(R.Step(s, e1), e2), R.OnSnapshot(R.Stamp(g)));
    R.StepReachable(Reading(s, g, x), R.OnSnapshot(R.Save(g, w, x.save)));
  }

  lemma ReadingDone(s: R.Room, g: nat, x: Generation)
    requires s.logs != [] && g !in s.snaps.gens && x.createdAt == s.now
    ensures var s' := Reading(s, g, x);
      && g in s'.snaps.gens && s'.snaps.gens.Keys == s.snaps.gens.Keys + {g}
      && s' == s.(snaps := s.snaps.(gens := s'.snaps.gens, overlapped := s'.snaps.overlapped))
      && (if x.version.Answered? then
            && s'.snaps.gens[g].Stamped?
            && s'.snaps.gens[g].taken.snap ==
                 Snapshot(s.id, if x.board.Answered? then s.redis.board else map[], x.createdAt, s.redis.version)
          else s'.snaps.gens[g].GenDone?)
  {
    hide R.ActionStep;
  }

  lemma SavingDone(s: R.Room, g: nat, w: nat, r: Reply)
    requires s.logs != [] && g in s.snaps.gens && w !in s.snaps.writes
    ensures var s', n := R.Step(s, R.OnSnapshot(R.Save(g, w, r))), |s.snaps.saved|;
      if s.snaps.gens[g].Stamped? then
        && s'.redis == s.redis && s'.now == s.now && s'.snaps.queries == s.snaps.queries
        && s'.snaps.gens.Keys == s.snaps.gens.Keys
        && (if r.Executed() then
              && |s'.snaps.saved| == n + 1 && s'.snaps.saved[..n] == s.snaps.saved
              && s'.snaps.saved[n] == s.snaps.gens[g].taken
            else s'.snaps.saved == s.snaps.saved)
        && s'.snaps.writes == if r.Answered? then s.snaps.writes[w := s.snaps.gens[g].taken.snap] else s.snaps.writes
      else s' == s
  {
    hide R.ActionStep;
  }

  /** An uninterrupted generation is a stretch of a run of the room machine that saves the
      same row, starts the same cache write and leaves Redis alone. */
  lemma GenerationIsSchedule(s: R.Room, g: nat, w: nat, x: Generation)
    requires R.Reachable(s) && g !in s.snaps.gens && w !in s.snaps.writes && x.createdAt == s.now
    ensures var s' := Alone(s, g, w, x);
      var row := Snapshot(s.id, if x.board.Answered? then s.redis.board else map[], x.createdAt, s.redis.version);
      var n := |s.snaps.saved|;
      && R.Reachable(s') && s'.redis == s.redis
      && (if x.version.Answered? && x.save.Executed() then
            |s'.snaps.saved| == n + 1 && s'.snaps.saved[..n] == s.snaps.saved && s'.snaps.saved[n].snap == row
          else s'.snaps.saved == s.snaps.saved)
      && s'.snaps.writes ==
           (if x.version.Answered? && x.save.Answered? then s.snaps.writes[w := row] else s.snaps.writes)
      && s'.now == s.now && s'.snaps.queries == s.snaps.queries && s'.snaps.gens.Keys == s.snaps.gens.Keys + {g}
  {
    hide R.Step, Reading;
    AloneReachable(s, g, w, x);
    ReadingDone(s, g, x);
    SavingDone(Reading(s, g, x), g, w, x.save);
  }

  /** A pending cache write is one step: executed, it leaves its snapshot in the slot. */
  lemma WriteIsStep(s: R.Room, w: nat, net: Reply)
    requires R.Reachable(s) && w in s.snaps.writes
    ensures var s' := R.Step(s, R.OnSnapshot(R.WriteCache(w, net)));
      && R.Reachable(s') && s'.now == s.now
      && s'.redis == s.redis.(cache := if net.Executed() then Some(s.snaps.writes[w]) else s.redis.cache)
      && s'.snaps.writes == s.snaps.writes - {w} && s'.snaps.saved == s.snaps.saved
      && s'.snaps.gens == s.snaps.gens && s'.snaps.queries == s.snaps.queries
  {
    R.StepReachable(s, R.OnSnapshot(R.WriteCache(w, net)));
  }

  /** An uninterrupted GetSnapshotForClient is two steps of the machine: it is answered from
      the cache, else with the newest row, whose cache write it starts, else with the empty
      board; and a failed or unreadable query is refused. */
  lemma QueryIsSchedule(s: R.Room, q: nat, w: nat, hit: bool, ok: bool)
    requires R.Reachable(s) && q !in s.snaps.queries && w !in s.snaps.writes
    ensures var s' := R.Step(R.Step(s, R.OnSnapshot(R.QueryCache(q, hit))), R.OnSnapshot(R.QueryDatabase(q, w, ok)));
      && R.Reachable(s') && s'.redis == s.redis && s'.snaps.saved == s.snaps.saved && q in s'.snaps.queries
      && (if hit && s.redis.cache.Some? then
            s'.snaps.queries[q] == R.Served(s.redis.cache.value) && s'.snaps.writes == s.snaps.writes
          else if !ok then s'.snaps.queries[q] == R.Refused && s'.snaps.writes == s.snaps.writes
          else if s.snaps.saved == [] then s'.snaps.queries[q] == R.ServedEmpty && s'.snaps.writes == s.snaps.writes
          else
            exists i :: Cache.FirstNewest(s.snaps.saved, i) && s'.snaps.queries[q] == R.Served(s.snaps.saved[i].snap)
                        && s'.snaps.writes == s.snaps.writes[w := s.snaps.saved[i].snap])
  {
    hide R.Latest, Cache.FirstNewest;
    var e1, e2 := R.OnSnapshot(R.QueryCache(q, hit)), R.OnSnapshot(R.QueryDatabase(q, w, ok));
    R.StepReachable(s, e1);
    R.StepReachable(R.Step(s, e1), e2);
    if s.snaps.saved != [] {
      Cache.LatestIsNewest(s.snaps.saved);
    }
  }

  /** The cached snapshot can be older than the newest row: a second later a new one is
      saved, and until its cache write runs a client is served the first. */
  lemma StaleCache() returns (s: R.Room)
    ensures R.Reachable(s) && |s.snaps.saved| == 2 && 0 in s.snaps.queries
    ensures s.snaps.queries[0] == R.Served(s.snaps.saved[0].snap)
    ensures s.snaps.saved[1].snap.createdAt == s.snaps.saved[0].snap.createdAt + 1_000_000_000
  {
    hide R.Step, Alone;
    R.InitReachable(7, 0);
    var s0 := R.Init(7, 0);
    GenerationIsSchedule(s0, 0, 0, Generation(Answered, Answered, Answered, Answered, 0));
    var s1 := Alone(s0, 0, 0, Generation(Answered, Answered, Answered, Answered, 0));
    WriteIsStep(s1, 0, Answered);
    var s2 := R.Step(s1, R.OnSnapshot(R.WriteCache(0, Answered)));
    R.StepReachable(s2, R.Tick(1_000_000_000));
    var s3 := R.Step(s2, R.Tick(1_000_000_000));
    Ticks(s2, 1_000_000_000);
    var x := Generation(Answered, Answered, Answered, Answered, s3.now);
    GenerationIsSchedule(s3, 1, 0, x);
    var s4 := Alone(s3, 1, 0, x);
    QueryIsSchedule(s4, 0, 1, true, true);
    s := R.Step(R.Step(s4, R.OnSnapshot(R.QueryCache(0, true))), R.OnSnapshot(R.QueryDatabase(0, 1, true)));
    assert s4.snaps.saved[0] == s3.snaps.saved[0];
  }

  lemma Ticks(s: R.Room, d: nat)
    requires s.logs != []
    ensures R.Step(s, R.Tick(d)) == s.(now := s.now + d)
  {
  }

  /** Once the entry expired, a client is served the first of the newest rows. */
  lemma ExpiryServesNewest(s: R.Room, q: nat, w: nat)
    requires R.Reachable(s) && q !in s.snaps.queries && w !in s.snaps.writes && s.snaps.saved != []
    ensures var s0 := R.Step(s, R.OnSnapshot(R.ExpireCache));
      var s' := R.Step(R.Step(s0, R.OnSnapshot(R.QueryCache(q, true))), R.OnSnapshot(R.QueryDatabase(q, w, true)));
      && R.Reachable(s') && q in s'.snaps.queries
      && exists i :: Cache.FirstNewest(s.snaps.saved, i) && s'.snaps.queries[q] == R.Served(s.snaps.saved[i].snap)
  {
    R.StepReachable(s, R.OnSnapshot(R.ExpireCache));
    var s0 := R.Step(s, R.OnSnapshot(R.ExpireCache));
    assert s0.snaps == s.snaps && s0.redis.cache == None;
    hide R.Step;
    QueryIsSchedule(s0, q, w, true, true);
  }
}
