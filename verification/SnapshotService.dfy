/** SnapshotService and the periodic SnapshotCheckHandler, over the repositories. */
module SnapshotService {
  import opened Wrappers
  import opened Decimal
  import opened Domain
  import opened Database
  import Keys
  import Pacing
  import RoomData
  import Redis = RedisStateRepository

  /** The fates of one generation, and its clock. */
  datatype Generation = Generation(board: Reply, version: Reply, save: Reply, reset: Reply, createdAt: int)

  /** The fates of one room's check, and its clocks. */
  datatype CheckFates = CheckFates(
    read: Reply, count: Reply, now: int, taken: int, generation: Generation, store: Reply)

  /** Answered generations are the ones CheckAndGenerateSnapshot counts. */
  predicate Succeeds(g: Generation) {
    g.version.Answered? && g.save.Answered?
  }

  function MakeSnapshot(roomID: nat, d: RoomData.RoomData, g: Generation): Snapshot {
    Snapshot(roomID, if g.board.Answered? then d.board else map[], g.createdAt, d.version)
  }

  /** The check Pacing reasons about. */
  function AsCheck(roomID: nat, rows: seq<ActionRow>, stored: Redis.Time, f: CheckFates): Pacing.Check {
    var seen := if f.read.Answered? then stored else None;
    Pacing.Check(CountSince(rows, roomID, seen), f.now, f.taken,
                 f.read.Answered?, f.count.Answered?, Succeeds(f.generation), f.store.Executed())
  }

  /** The row a check saves: when the rule is due and the version was read, whether or
      not the database confirms it. */
  function SavedRow(d: RoomData.RoomData, roomID: nat, last: Redis.Time, c: Pacing.Check, g: Generation): seq<Snapshot> {
    if Pacing.Decides(last, c) && g.version.Answered? && g.save.Executed() then [MakeSnapshot(roomID, d, g)] else []
  }

  /** The snapshot whose cache write a check starts. */
  function StartedWrite(d: RoomData.RoomData, roomID: nat, last: Redis.Time, c: Pacing.Check, g: Generation): seq<Snapshot> {
    if Pacing.Snaps(last, c) then [MakeSnapshot(roomID, d, g)] else []
  }

  /** What one room's check comes to: the stored time, whether it failed, the row it
      saves, and the cache write it starts. */
  datatype Checked = Checked(stored: Redis.Time, failed: bool, saved: seq<Snapshot>, started: seq<Snapshot>)

  function CheckedBy(d: RoomData.RoomData, roomID: nat, rows: seq<ActionRow>, f: CheckFates): Checked {
    var last := Redis.StoredTime(d.lastTime);
    var c := AsCheck(roomID, rows, last, f);
    Checked(Pacing.Stored(last, c), Pacing.Fails(last, c),
            SavedRow(d, roomID, last, c, f.generation), StartedWrite(d, roomID, last, c, f.generation))
  }

  function AllSaved(cs: seq<Checked>): seq<Snapshot> {
    if cs == [] then [] else AllSaved(cs[..|cs| - 1]) + cs[|cs| - 1].saved
  }

  function AllStarted(cs: seq<Checked>): seq<Snapshot> {
    if cs == [] then [] else AllStarted(cs[..|cs| - 1]) + cs[|cs| - 1].started
  }

  lemma OneMore(cs: seq<Checked>, c: Checked)
    ensures AllSaved(cs + [c]) == AllSaved(cs) + c.saved && AllStarted(cs + [c]) == AllStarted(cs) + c.started
  {
    assert (cs + [c])[..|cs|] == cs;
  }

  lemma Nothing()
    ensures AllSaved([]) == [] && AllStarted([]) == []
  {
  }

  /** What one room's check comes to, in full: without the stored time the room counts as
      never snapshotted; a snapshot is due once a minute with more than 100 rows since the
      last one, every 5 minutes with more than 20, every 15 otherwise; the row has the board
      and the version as the two reads answered them; and the time stored is cut to whole
      seconds. */
  lemma CheckedMeans(d: RoomData.RoomData, roomID: nat, rows: seq<ActionRow>, f: CheckFates)
    ensures var c, g := CheckedBy(d, roomID, rows, f), f.generation;
      var last := if f.read.Answered? then Redis.StoredTime(d.lastTime) else None;
      var n := |set i | 0 <= i < |rows| && rows[i].action.roomID == roomID && (last.None? || rows[i].createdAt > last.value)|;
      var wait := if n > 100 then 60_000_000_000 else if n > 20 then 300_000_000_000 else 900_000_000_000;
      var due := f.count.Answered? && (last.None? || f.now - last.value >= wait);
      var done := due && g.version.Answered? && g.save.Answered?;
      var row := Snapshot(roomID, if g.board.Answered? then d.board else map[], g.createdAt, d.version);
      && c.failed == (!f.count.Answered? || (due && !done))
      && c.saved == (if due && g.version.Answered? && g.save.Executed() then [row] else [])
      && c.started == (if done then [row] else [])
      && c.stored == if done && f.store.Executed() then Some(f.taken - f.taken % 1_000_000_000)
                     else Redis.StoredTime(d.lastTime)
  {
    hide Redis.StoredTime;
    CountIsCardinality(rows, roomID, if f.read.Answered? then Redis.StoredTime(d.lastTime) else None);
  }

  class SnapshotService {
    const stateRepo: Redis.RedisStateRepository
    const db: Database
    /** The asynchronous cache writes that have been started and not yet run. */
    var pending: seq<Snapshot>

    constructor (stateRepo: Redis.RedisStateRepository, db: Database)
      ensures this.stateRepo == stateRepo && this.db == db && pending == []
    {
      this.stateRepo := stateRepo;
      this.db := db;
      pending := [];
    }

    /** Cached and to-be-cached snapshots are rows of the table, each under its own room. */
    ghost predicate Consistent()
      reads this, stateRepo, db
    {
      && stateRepo.Valid()
      && (forall s :: s in pending ==> s in db.snapshots)
      && (forall q: nat :: stateRepo.Room(q).cache.Some? ==>
            stateRepo.Room(q).cache.value in db.snapshots && stateRepo.Room(q).cache.value.roomID == q)
    }

    /** With nobody between its two reads, the saved snapshot is the live board at the
        live version; a failed board read saves an empty board under that version. */
    method GenerateSnapshot(roomID: nat, g: Generation) returns (r: Result<(), Redis.Error>)
      requires Consistent()
      modifies this`pending, stateRepo, db`snapshots
      ensures Consistent()
      ensures r.Ok? <==> g.version.Answered? && g.save.Answered?
      ensures var d := old(stateRepo.Room(roomID));
              var s := Snapshot(roomID, if g.board.Answered? then d.board else map[], g.createdAt, d.version);
              && db.snapshots == old(db.snapshots) + (if g.version.Answered? && g.save.Executed() then [s] else [])
              && pending == old(pending) + (if r.Ok? then [s] else [])
      ensures forall q: nat :: stateRepo.Room(q) == old(stateRepo.Room(q))
      ensures stateRepo.Ops(roomID) == if r.Ok? && g.reset.Executed() then 0 else old(stateRepo.Ops(roomID))
    {
      hide Keys.RoomKey, Keys.View;
      var state := stateRepo.GetBoardState(roomID, g.board);
      var version := stateRepo.GetCurrentVersion(roomID, g.version);
      if version.Err? {
        return Err(version.error);
      }
      var snapshot := Snapshot(roomID, if state.Ok? then state.value else map[], g.createdAt, version.value);
      var saved := db.SaveSnapshot(snapshot, g.save);
      if saved.Err? {
        return Err(saved.error);
      }
      pending := pending + [snapshot];
      var reset := stateRepo.ResetOpCount(roomID, g.reset);
      assert forall q: nat :: stateRepo.Room(q) == old(stateRepo.Room(q));
      r := Ok(());
    }

    /** One pending cache write runs, in whatever order the goroutines get to. */
    method RunPending(k: nat, net: Reply)
      requires Consistent() && k < |pending|
      modifies this`pending, stateRepo
      ensures Consistent()
      ensures pending == old(pending[..k] + pending[k + 1..])
      ensures var s := old(pending[k]);
              stateRepo.Room(s.roomID) == if net.Executed() then RoomData.SetCache(old(stateRepo.Room(s.roomID)), s)
                                          else old(stateRepo.Room(s.roomID))
      ensures forall q: nat :: q != old(pending[k]).roomID ==> stateRepo.Room(q) == old(stateRepo.Room(q))
    {
      hide Keys.RoomKey, Keys.View;
      var s := pending[k];
      assert s in pending;
      assert forall x :: x in pending[..k] + pending[k + 1..] ==> x in pending;
      pending := pending[..k] + pending[k + 1..];
      var done := stateRepo.SetSnapshotCache(s.roomID, s, net);
      assert forall q: nat :: q != s.roomID ==> stateRepo.Room(q) == old(stateRepo.Room(q));
    }

    /** Cache first, then the database, then the empty board. A client is answered
        with a row of its own room, the newest one unless the cache answered, or with
        the empty version-0 board exactly when the room has no row. A cached state that
        does not parse counts as missing, a row's as an error. */
    method GetSnapshotForClient(roomID: nat, cached: Reply, readable: bool, queried: Reply, rowReadable: bool)
      returns (r: Result<Snapshot, Redis.Error>)
      requires Consistent()
      modifies this`pending
      ensures Consistent()
      ensures var hit := cached.Answered? && readable && stateRepo.Room(roomID).cache.Some?;
              && (hit ==> r == Ok(stateRepo.Room(roomID).cache.value) && pending == old(pending))
              && (!hit && queried.Failed? ==> r == Err(Redis.Internal) && pending == old(pending))
              && (!hit && queried.Answered? ==>
                    var row := LatestOf(db.snapshots, roomID);
                    if row.None? then r == Ok(Snapshot(roomID, map[], 0, 0)) && pending == old(pending)
                    else if !rowReadable then r == Err(Redis.Internal) && pending == old(pending)
                    else r == Ok(row.value) && pending == old(pending) + [row.value])
      ensures r.Ok? && (exists s :: s in db.snapshots && s.roomID == roomID) ==>
                r.value in db.snapshots && r.value.roomID == roomID
      ensures r.Ok? && (forall s :: s in db.snapshots ==> s.roomID != roomID) ==>
                r.value.state == map[] && r.value.version == 0
    {
      hide Keys.RoomKey, Keys.View;
      var hit := stateRepo.GetSnapshotCache(roomID, cached);
      if hit.Ok? && readable {
        return hit;
      }
      var row := db.GetLatestSnapshot(roomID, queried);
      LatestOfRoom(db.snapshots, roomID);
      if row.Err? {
        if row.error == Redis.NotFound {
          return Ok(Snapshot(roomID, map[], 0, 0));
        }
        return Err(Redis.Internal);
      }
      if !rowReadable {
        return Err(Redis.Internal);
      }
      pending := pending + [row.value];
      r := row;
    }

    method CheckAndGenerateSnapshot(roomID: nat, last: Redis.Time, f: CheckFates)
      returns (time: Redis.Time, r: Result<(), Redis.Error>)
      requires Consistent()
      modifies this`pending, stateRepo, db`snapshots
      ensures Consistent()
      ensures var c := Pacing.Check(CountSince(db.actions, roomID, last), f.now, f.taken,
                                    true, f.count.Answered?, Succeeds(f.generation), true);
              && time == (if Pacing.Snaps(last, c) then Some(f.taken) else last)
              && (r.Ok? <==> f.count.Answered? && (Pacing.Decides(last, c) ==> Pacing.Snaps(last, c)))
              && db.snapshots == old(db.snapshots) + SavedRow(old(stateRepo.Room(roomID)), roomID, last, c, f.generation)
              && pending == old(pending) + StartedWrite(old(stateRepo.Room(roomID)), roomID, last, c, f.generation)
      ensures var n := |set i | 0 <= i < |db.actions| && db.actions[i].action.roomID == roomID
                                && (last.None? || db.actions[i].createdAt > last.value)|;
              var wait := if n > 100 then 60_000_000_000 else if n > 20 then 300_000_000_000 else 900_000_000_000;
              var due := f.count.Answered? && (last.None? || f.now - last.value >= wait);
              var done := due && f.generation.version.Answered? && f.generation.save.Answered?;
              && time == (if done then Some(f.taken) else last)
              && (r.Ok? <==> f.count.Answered? && (due ==> done))
      ensures forall q: nat :: stateRepo.Room(q) == old(stateRepo.Room(q))
    {
      hide Keys.RoomKey, Keys.View;
      CountIsCardinality(db.actions, roomID, last);
      var count := db.GetCountSince(roomID, last, f.count);
      if count.Err? {
        return last, Err(Redis.Internal);
      }
      if !Pacing.Due(last, Pacing.Interval(count.value), f.now) {
        return last, Ok(());
      }
      var generated := GenerateSnapshot(roomID, f.generation);
      if generated.Err? {
        return last, generated;
      }
      return Some(f.taken), Ok(());
    }
  }

  class SnapshotCheckHandler {
    const service: SnapshotService
    const stateRepo: Redis.RedisStateRepository

    constructor (service: SnapshotService)
      ensures this.service == service && stateRepo == service.stateRepo
    {
      this.service := service;
      stateRepo := service.stateRepo;
    }

    ghost predicate Valid()
      reads service, service.stateRepo, service.db
    {
      stateRepo == service.stateRepo && service.Consistent()
    }

    function LastTime(roomID: nat): Redis.Time
      reads stateRepo
    {
      Redis.StoredTime(stateRepo.Room(roomID).lastTime)
    }

    function Outcome(roomID: nat, f: CheckFates): Checked
      reads stateRepo, service, service.db
    {
      CheckedBy(stateRepo.Room(roomID), roomID, service.db.actions, f)
    }

    /** One room's goroutine. Its stored time moves exactly as Pacing says, the row it
        saves is the room's board at the room's version, and nothing else changes. */
    method CheckRoom(roomID: nat, f: CheckFates) returns (failed: bool)
      requires Valid() && InInt64(f.taken / Pacing.SECOND)
      modifies service`pending, service.stateRepo, service.db`snapshots
      ensures Valid()
      ensures var c := old(Outcome(roomID, f));
              && LastTime(roomID) == c.stored && failed == c.failed
              && service.db.snapshots == old(service.db.snapshots) + c.saved
              && service.pending == old(service.pending) + c.started
      ensures stateRepo.Room(roomID) == old(stateRepo.Room(roomID)).(lastTime := stateRepo.Room(roomID).lastTime)
      ensures forall q: nat :: q != roomID ==> stateRepo.Room(q) == old(stateRepo.Room(q))
    {
      hide Keys.RoomKey, Keys.View, FormatInt, ParseInt;
      var last := stateRepo.GetLastSnapshotTime(roomID, f.read);
      var lastTime := if last.Ok? then last.value else None;
      var newTime, r := service.CheckAndGenerateSnapshot(roomID, lastTime, f);
      if r.Err? {
        return true;
      }
      if newTime != lastTime {
        Redis.StoredTimeRoundTrip(newTime.value);
        label before:
        var stored := stateRepo.SetLastSnapshotTime(roomID, newTime.value, f.store);
        assert forall q: nat :: q != roomID ==> stateRepo.Room(q) == old@before(stateRepo.Room(q));
      }
      return false;
    }

    /** Failed rooms are collected and logged; the task itself always succeeds. `cs` is
        what each room's check comes to, given the room's data before the task. */
    method ProcessTask(activeRoomIDs: seq<nat>, fates: nat -> CheckFates)
      returns (errors: seq<nat>, ghost cs: seq<Checked>)
      requires Valid()
      requires forall i, j :: 0 <= i < j < |activeRoomIDs| ==> activeRoomIDs[i] != activeRoomIDs[j]
      requires forall r: nat :: InInt64(fates(r).taken / Pacing.SECOND)
      modifies service`pending, service.stateRepo, service.db`snapshots
      ensures Valid()
      ensures |cs| == |activeRoomIDs|
      ensures forall i :: 0 <= i < |cs| ==>
                && cs[i] == old(Outcome(activeRoomIDs[i], fates(activeRoomIDs[i])))
                && LastTime(activeRoomIDs[i]) == cs[i].stored && (activeRoomIDs[i] in errors <==> cs[i].failed)
      ensures service.db.snapshots == old(service.db.snapshots) + AllSaved(cs)
      ensures service.pending == old(service.pending) + AllStarted(cs)
      ensures forall r :: r in errors ==> r in activeRoomIDs
      ensures forall r: nat :: r !in activeRoomIDs ==> stateRepo.Room(r) == old(stateRepo.Room(r))
    {
      hide Keys.RoomKey, Keys.View, FormatInt, ParseInt, CheckedBy, Redis.StoredTime, AllSaved, AllStarted;
      errors, cs := [], [];
      Nothing();
      for i := 0 to |activeRoomIDs|
        invariant Valid() && |cs| == i
        invariant forall j :: 0 <= j < i ==> cs[j] == old(Outcome(activeRoomIDs[j], fates(activeRoomIDs[j])))
        invariant forall j :: 0 <= j < i ==> LastTime(activeRoomIDs[j]) == cs[j].stored
        invariant forall j :: 0 <= j < i ==> (activeRoomIDs[j] in errors <==> cs[j].failed)
        invariant forall r :: r in errors ==> r in activeRoomIDs[..i]
        invariant forall r: nat :: r !in activeRoomIDs[..i] ==> stateRepo.Room(r) == old(stateRepo.Room(r))
        invariant service.db.snapshots == old(service.db.snapshots) + AllSaved(cs)
        invariant service.pending == old(service.pending) + AllStarted(cs)
      {
        var roomID := activeRoomIDs[i];
        assert roomID !in activeRoomIDs[..i];
        ghost var c := Outcome(roomID, fates(roomID));
        assert c == old(Outcome(roomID, fates(roomID)));
        var failed := CheckRoom(roomID, fates(roomID));
        if failed {
          errors := errors + [roomID];
        }
        OneMore(cs, c);
        cs := cs + [c];
      }
    }
  }
}
