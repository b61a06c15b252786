/** The snapshots and actions tables, as the repositories use them. */
module Database {
  import opened Wrappers
  import opened Domain
  import RoomMachine
  import Redis = RedisStateRepository

  datatype ActionRow = ActionRow(action: Action, createdAt: int)

  predicate Newer(a: Snapshot, best: Option<Snapshot>) {
    best.None? || a.createdAt > best.value.createdAt
  }

  /** WHERE room_id = ? ORDER BY created_at DESC, id LIMIT 1 */
  function LatestOf(table: seq<Snapshot>, roomID: nat): Option<Snapshot> {
    if table == [] then None
    else
      var n := |table| - 1;
      var best := LatestOf(table[..n], roomID);
      if table[n].roomID == roomID && Newer(table[n], best) then Some(table[n]) else best
  }

  /** Row `i` is the room's, none of the room is newer, and none before it is as new. */
  ghost predicate FirstNewest(table: seq<Snapshot>, roomID: nat, i: int) {
    && 0 <= i < |table| && table[i].roomID == roomID
    && (forall j :: 0 <= j < |table| && table[j].roomID == roomID ==> table[j].createdAt <= table[i].createdAt)
    && (forall j :: 0 <= j < i && table[j].roomID == roomID ==> table[j].createdAt < table[i].createdAt)
  }

  /** The row found is the first of the room's newest; nothing is found exactly when the
      room has no row. */
  lemma {:induction false} LatestOfRoom(table: seq<Snapshot>, roomID: nat)
    ensures LatestOf(table, roomID).None? <==> forall s :: s in table ==> s.roomID != roomID
    ensures LatestOf(table, roomID).Some? ==>
              exists i :: FirstNewest(table, roomID, i) && table[i] == LatestOf(table, roomID).value
  {
    if table != [] {
      var n := |table| - 1;
      LatestOfRoom(table[..n], roomID);
      assert table == table[..n] + [table[n]];
      if LatestOf(table, roomID).Some? {
        if LatestOf(table, roomID) == LatestOf(table[..n], roomID) {
          var i :| FirstNewest(table[..n], roomID, i) && table[..n][i] == LatestOf(table[..n], roomID).value;
          assert FirstNewest(table, roomID, i);
        } else {
          assert FirstNewest(table, roomID, n);
        }
      }
    }
  }

  /** On one room's rows, the query is the machine's. */
  lemma {:induction false} LatestAgrees(saved: seq<RoomMachine.Taken>, table: seq<Snapshot>, roomID: nat)
    requires |table| == |saved| > 0
    requires forall i :: 0 <= i < |saved| ==> table[i] == saved[i].snap && table[i].roomID == roomID
    ensures LatestOf(table, roomID) == Some(RoomMachine.Latest(saved))
  {
    var n := |saved| - 1;
    if n > 0 {
      LatestAgrees(saved[..n], table[..n], roomID);
    } else {
      assert LatestOf(table[..n], roomID) == None;
    }
  }

  predicate Since(row: ActionRow, roomID: nat, t: Redis.Time) {
    row.action.roomID == roomID && (t.None? || row.createdAt > t.value)
  }

  function CountSince(rows: seq<ActionRow>, roomID: nat, t: Redis.Time): nat {
    if rows == [] then 0
    else
      var n := |rows| - 1;
      CountSince(rows[..n], roomID, t) + if Since(rows[n], roomID, t) then 1 else 0
  }

  /** The count is the number of rows of this room, later than the time if one is given. */
  lemma {:induction false} CountIsCardinality(rows: seq<ActionRow>, roomID: nat, t: Redis.Time)
    ensures CountSince(rows, roomID, t) ==
      |set i | 0 <= i < |rows| && rows[i].action.roomID == roomID && (t.None? || rows[i].createdAt > t.value)|
  {
    var counted := set i | 0 <= i < |rows| && rows[i].action.roomID == roomID && (t.None? || rows[i].createdAt > t.value);
    if rows == [] {
      assert counted == {};
    } else {
      var n := |rows| - 1;
      var init := rows[..n];
      CountIsCardinality(init, roomID, t);
      var before := set i | 0 <= i < |init| && init[i].action.roomID == roomID && (t.None? || init[i].createdAt > t.value);
      assert forall i :: 0 <= i < n ==> init[i] == rows[i];
      assert counted - {n} == before;
      assert n in counted <==> Since(rows[n], roomID, t);
    }
  }

  /** A row of another room changes no count, and one of the room adds one to the counts
      from an earlier time, or from no time. */
  lemma CountAfterRow(rows: seq<ActionRow>, row: ActionRow, roomID: nat, t: Redis.Time)
    ensures CountSince(rows + [row], roomID, t) == CountSince(rows, roomID, t) +
      if row.action.roomID == roomID && (t.None? || row.createdAt > t.value) then 1 else 0
  {
    assert (rows + [row])[..|rows|] == rows;
  }

  class Database {
    var snapshots: seq<Snapshot>
    var actions: seq<ActionRow>

    constructor ()
      ensures snapshots == [] && actions == []
    {
      snapshots, actions := [], [];
    }

    method SaveSnapshot(s: Snapshot, net: Reply) returns (r: Result<(), Redis.Error>)
      modifies this`snapshots
      ensures snapshots == if net.Executed() then old(snapshots) + [s] else old(snapshots)
      ensures r == if net.Answered? then Ok(()) else Err(Redis.Unavailable)
    {
      if net.Executed() {
        snapshots := snapshots + [s];
      }
      r := if net.Answered? then Ok(()) else Err(Redis.Unavailable);
    }

    method GetLatestSnapshot(roomID: nat, net: Reply) returns (r: Result<Snapshot, Redis.Error>)
      ensures r == if net.Failed? then Err(Redis.Unavailable)
                   else if LatestOf(snapshots, roomID).Some? then Ok(LatestOf(snapshots, roomID).value)
                   else Err(Redis.NotFound)
    {
      if net.Failed? {
        return Err(Redis.Unavailable);
      }
      var best := LatestOf(snapshots, roomID);
      r := if best.Some? then Ok(best.value) else Err(Redis.NotFound);
    }

    /** An empty batch is not sent; a failed one may still have been committed. */
    method SaveBatch(batch: seq<Action>, now: int, net: Reply) returns (r: Result<(), Redis.Error>)
      modifies this`actions
      ensures old(actions) <= actions
      ensures |actions| == |old(actions)| + if net.Executed() then |batch| else 0
      ensures forall i :: |old(actions)| <= i < |actions| ==>
                actions[i] == ActionRow(batch[i - |old(actions)|], now)
      ensures r == if batch == [] || net.Answered? then Ok(()) else Err(Redis.Unavailable)
    {
      if |batch| == 0 {
        return Ok(());
      }
      if net.Executed() {
        actions := actions + Stamp(batch, now);
      }
      r := if net.Answered? then Ok(()) else Err(Redis.Unavailable);
    }

    method GetCountSince(roomID: nat, t: Redis.Time, net: Reply) returns (r: Result<nat, Redis.Error>)
      ensures r == if net.Answered? then Ok(CountSince(actions, roomID, t)) else Err(Redis.Unavailable)
      ensures r.Ok? ==>
        r.value == |set i | 0 <= i < |actions| && actions[i].action.roomID == roomID && (t.None? || actions[i].createdAt > t.value)|
    {
      CountIsCardinality(actions, roomID, t);
      if net.Failed? {
        return Err(Redis.Unavailable);
      }
      r := Ok(CountSince(actions, roomID, t));
    }
  }

  function Stamp(batch: seq<Action>, now: int): seq<ActionRow> {
    seq(|batch|, i requires 0 <= i < |batch| => ActionRow(batch[i], now))
  }

  // ----- the persistence worker ---------------------------------------------

  /** What the worker tells the queue. */
  datatype Verdict = Done | Retry | SkipRetry

  class ActionPersistenceHandler {
    const db: Database

    constructor (db: Database)
      ensures this.db == db
    {
      this.db := db;
    }

    /** An undecodable payload is never retried; a failed save is. A task is done
        only if its row is in the table. */
    method ProcessTask(payload: Option<Action>, now: int, net: Reply) returns (v: Verdict)
      modifies db`actions
      ensures v == if payload.None? then SkipRetry else if net.Answered? then Done else Retry
      ensures db.actions == old(db.actions)
                          + if payload.Some? && net.Executed() then [ActionRow(payload.value, now)] else []
    {
      if payload.None? {
        return SkipRetry;
      }
      var saved := db.SaveBatch([payload.value], now, net);
      v := if saved.Err? then Retry else Done;
    }
  }
}
