/** The Redis implementation of the state repository. Each method takes the fate
    of its command: answered, or failed with or without having been executed. A read
    whose answer does not parse fails like one that got none: the source returns a
    plain error for both. */
module RedisStateRepository {
  import opened Wrappers
  import opened Decimal
  import opened Domain
  import opened RoomData
  import opened Keys
  import History

  datatype Error = Unavailable | NotFound | InvalidAction | Internal

  datatype Message = Message(channel: string, action: Action)

  /** time.Time as nanoseconds since 1970; None is the zero Time. */
  type Time = Option<int>

  const SECOND := 1_000_000_000

  /** `actions` are the entries at the positions `at`, which are just those that decode, in order. */
  ghost predicate Selects(stored: seq<Action>, decodes: nat -> bool, actions: seq<Action>, at: seq<nat>) {
    && |at| == |actions| && (forall i: nat :: i in at <==> i < |stored| && decodes(i))
    && (forall i, j :: 0 <= i < j < |at| ==> at[i] < at[j])
    && (forall j :: 0 <= j < |at| ==> at[j] < |stored| && actions[j] == stored[at[j]])
  }

  class RedisStateRepository {
    const keyPrefix: string
    var store: Store
    var published: seq<Message>

    ghost predicate Valid()
      reads this
    {
      Typed(keyPrefix, store)
    }

    function Room(roomID: nat): RoomData
      reads this
    {
      View(keyPrefix, store, roomID)
    }

    /** The room's operation counter, an absent key being 0. */
    function Ops(roomID: nat): nat
      reads this
    {
      var v := Get(keyPrefix, store, roomID, OpCount);
      if v.Some? && v.value.Counter? then v.value.n else 0
    }

    constructor (prefix: string)
      ensures keyPrefix == if prefix == "" then "bb:" else prefix
      ensures Valid() && store == map[] && published == []
    {
      keyPrefix := if prefix == "" then "bb:" else prefix;
      store := map[];
      published := [];
    }

    method Write(roomID: nat, k: Kind, v: Value)
      requires Valid() && Fits(k, v)
      modifies this`store
      ensures Valid() && Room(roomID) == Absorb(old(Room(roomID)), k, v)
      ensures Ops(roomID) == if k == OpCount then v.n else old(Ops(roomID))
      ensures SameElsewhere(keyPrefix, old(store), store, roomID)
    {
      hide RoomKey;
      PutWrites(keyPrefix, store, roomID, k, v);
      GetAfterPut(keyPrefix, store, roomID, k, v, roomID, OpCount);
      store := Put(keyPrefix, store, roomID, k, v);
    }

    method GetBoardState(roomID: nat, net: Reply) returns (r: Result<BoardState, Error>)
      requires Valid()
      ensures r == if net.Answered? then Ok(Room(roomID).board) else Err(Unavailable)
    {
      hide RoomKey;
      if net.Failed? {
        return Err(Unavailable);
      }
      var v := Get(keyPrefix, store, roomID, State);
      r := Ok(if v.Some? && v.value.Hash? then v.value.fields else map[]);
    }

    method GetCurrentVersion(roomID: nat, net: Reply) returns (r: Result<nat, Error>)
      requires Valid()
      ensures r == if net.Answered? then Ok(Room(roomID).version) else Err(Unavailable)
    {
      hide RoomKey;
      if net.Failed? {
        return Err(Unavailable);
      }
      var v := Get(keyPrefix, store, roomID, Version);
      r := Ok(if v.Some? && v.value.Counter? then v.value.n else 0);
    }

    method IncrementVersion(roomID: nat, net: Reply) returns (r: Result<nat, Error>)
      requires Valid()
      modifies this`store
      ensures Valid() && SameElsewhere(keyPrefix, old(store), store, roomID)
      ensures Ops(roomID) == old(Ops(roomID))
      ensures Room(roomID) == if net.Executed() then Bump(old(Room(roomID))) else old(Room(roomID))
      ensures r == if net.Answered? then Ok(old(Room(roomID)).version + 1) else Err(Unavailable)
    {
      hide RoomKey;
      var d := Room(roomID);
      if net.Executed() {
        Write(roomID, Version, Counter(d.version + 1));
      }
      r := if net.Answered? then Ok(d.version + 1) else Err(Unavailable);
    }

    /** The Lua script: HSET for "draw", HDEL for "erase", then INCR. */
    method RunApplyAndIncr(roomID: nat, field: string, color: string, actionType: string) returns (version: nat)
      requires Valid()
      modifies this`store
      ensures Valid() && SameElsewhere(keyPrefix, old(store), store, roomID)
      ensures Ops(roomID) == old(Ops(roomID))
      ensures version == old(Room(roomID)).version + 1
      ensures Room(roomID) == old(Room(roomID)).(
                board := if actionType == "draw" then old(Room(roomID)).board[field := color]
                         else if actionType == "erase" then old(Room(roomID)).board - {field}
                         else old(Room(roomID)).board,
                version := version)
    {
      hide RoomKey, SameElsewhere;
      var d := Room(roomID);
      ghost var before := store;
      ElsewhereItself(keyPrefix, store, roomID);
      if actionType == "draw" {
        Write(roomID, State, Hash(d.board[field := color]));
      } else if actionType == "erase" {
        Write(roomID, State, Hash(d.board - {field}));
      }
      ghost var between := store;
      version := d.version + 1;
      Write(roomID, Version, Counter(version));
      ElsewhereChains(keyPrefix, before, between, store, roomID);
    }

    /** The caller's type is replaced by the one the colour implies. */
    method ApplyActionDataAndIncrementVersionAtomically(
        roomID: nat, actionType: string, data: DrawData, net: Reply) returns (r: Result<nat, Error>)
      requires Valid()
      modifies this`store
      ensures Valid() && SameElsewhere(keyPrefix, old(store), store, roomID)
      ensures Ops(roomID) == old(Ops(roomID))
      ensures Room(roomID) == if net.Executed() then Script(old(Room(roomID)), data) else old(Room(roomID))
      ensures net.Executed() ==> Room(roomID) == old(Room(roomID)).(
                board := if data.color != "" then old(Room(roomID)).board[FieldKey(data.x, data.y) := data.color]
                         else old(Room(roomID)).board - {FieldKey(data.x, data.y)},
                version := old(Room(roomID)).version + 1)
      ensures r == if net.Answered? then Ok(old(Room(roomID)).version + 1) else Err(Unavailable)
    {
      hide RoomKey, FieldKey;
      var scriptType, colorValue := "erase", "";
      if data.color != "" {
        scriptType, colorValue := "draw", data.color;
      }
      var version := Room(roomID).version + 1;
      if net.Executed() {
        version := RunApplyAndIncr(roomID, FieldKey(data.x, data.y), colorValue, scriptType);
      }
      r := if net.Answered? then Ok(version) else Err(Unavailable);
    }

    /** Here the recorded type decides; an unknown type is a warning, not an error, and data
        that does not parse is an error before any command. */
    method ApplyActionToState(roomID: nat, action: Action, parses: bool, net: Reply) returns (r: Result<(), Error>)
      requires Valid()
      modifies this`store
      ensures Valid() && SameElsewhere(keyPrefix, old(store), store, roomID)
      ensures Ops(roomID) == old(Ops(roomID))
      ensures Room(roomID) == if parses && net.Executed() then
                old(Room(roomID)).(board := Board.ApplyByType(old(Room(roomID)).board, EditOf(action)))
              else old(Room(roomID))
      ensures parses && net.Executed() ==>
                var b, field := old(Room(roomID)).board, FieldKey(action.data.x, action.data.y);
                Room(roomID).board == if action.actionType == "draw" then b[field := action.data.color]
                                      else if action.actionType == "erase" then b - {field} else b
      ensures r == if parses && (net.Answered? || !(action.actionType == "draw" || action.actionType == "erase")) then Ok(())
                   else Err(Unavailable)
    {
      hide RoomKey, FieldKey;
      ElsewhereItself(keyPrefix, store, roomID);
      if !parses {
        return Err(Unavailable);
      }
      var field := FieldKey(action.data.x, action.data.y);
      var d := Room(roomID);
      if action.actionType == "draw" {
        if net.Executed() {
          Write(roomID, State, Hash(d.board[field := action.data.color]));
        }
      } else if action.actionType == "erase" {
        if net.Executed() {
          Write(roomID, State, Hash(d.board - {field}));
        }
      } else {
        return Ok(());
      }
      r := if net.Answered? then Ok(()) else Err(Unavailable);
    }

    method IncrementOpCount(roomID: nat, net: Reply) returns (r: Result<(), Error>)
      requires Valid()
      modifies this`store
      ensures Valid() && SameElsewhere(keyPrefix, old(store), store, roomID)
      ensures Room(roomID) == old(Room(roomID))
      ensures Ops(roomID) == old(Ops(roomID)) + if net.Executed() then 1 else 0
      ensures r == if net.Answered? then Ok(()) else Err(Unavailable)
    {
      hide RoomKey;
      if net.Executed() {
        Write(roomID, OpCount, Counter(Ops(roomID) + 1));
      }
      r := if net.Answered? then Ok(()) else Err(Unavailable);
    }

    method ResetOpCount(roomID: nat, net: Reply) returns (r: Result<(), Error>)
      requires Valid()
      modifies this`store
      ensures Valid() && SameElsewhere(keyPrefix, old(store), store, roomID)
      ensures Room(roomID) == old(Room(roomID))
      ensures Ops(roomID) == if net.Executed() then 0 else old(Ops(roomID))
      ensures r == if net.Answered? then Ok(()) else Err(Unavailable)
    {
      hide RoomKey;
      if net.Executed() {
        Write(roomID, OpCount, Counter(0));
      }
      r := if net.Answered? then Ok(()) else Err(Unavailable);
    }

    /** LRANGE, then the loop that decodes the answer and skips what does not decode;
        `decodes` says which of its texts do. The answer lists, oldest first, those of the
        newest `limit` entries that decode. */
    method GetRecentActions(roomID: nat, limit: int, decodes: nat -> bool, net: Reply)
      returns (r: Result<seq<Action>, Error>)
      requires Valid()
      ensures if net.Failed? then r == Err(Unavailable) else r.Ok?
      ensures r.Ok? ==>
        var h, k := Room(roomID).history, if limit <= 0 then 100 else limit;
        var newest := if |h| < k then h else h[|h| - k..];
        exists at :: Selects(newest, decodes, r.value, at)
    {
      hide RoomKey, View, Last, Selects;
      if net.Failed? {
        return Err(Unavailable);
      }
      var n: nat := if limit <= 0 then HISTORY_LIMIT else limit;
      var stored := Last(Room(roomID).history, n);
      assert stored == History.Recent(Room(roomID).history, limit);
      History.RecentAre(Room(roomID).history, limit);
      var actions, at := Decode(stored, decodes);
      ghost var h := Room(roomID).history;
      assert stored == if |h| < n then h else h[|h| - n..];
      return Ok(actions);
    }

    method Decode(stored: seq<Action>, decodes: nat -> bool) returns (actions: seq<Action>, ghost at: seq<nat>)
      ensures Selects(stored, decodes, actions, at)
    {
      actions, at := [], [];
      for i := 0 to |stored|
        invariant |at| == |actions|
        invariant forall j: nat :: j in at <==> j < i && decodes(j)
        invariant forall j, k :: 0 <= j < k < |at| ==> at[j] < at[k]
        invariant forall j :: 0 <= j < |at| ==> at[j] < i && actions[j] == stored[at[j]]
      {
        if decodes(i) {
          actions, at := actions + [stored[i]], at + [i];
        }
      }
    }

    /** RPUSH and LTRIM travel together but run as two commands; `pushed` and
        `trimmed` say which of them ran. */
    method PushActionToHistory(roomID: nat, action: Action, pushed: bool, trimmed: bool, answered: bool)
      returns (r: Result<(), Error>)
      requires Valid() && (trimmed ==> pushed) && (answered ==> trimmed)
      modifies this`store
      ensures Valid() && SameElsewhere(keyPrefix, old(store), store, roomID)
      ensures Ops(roomID) == old(Ops(roomID))
      ensures Room(roomID) ==
                if trimmed then Trim(Push(old(Room(roomID)), action))
                else if pushed then Push(old(Room(roomID)), action)
                else old(Room(roomID))
      ensures var h := if pushed then old(Room(roomID)).history + [action] else old(Room(roomID)).history;
              Room(roomID).history == if trimmed && |h| > 100 then h[|h| - 100..] else h
      ensures r == if answered then Ok(()) else Err(Unavailable)
    {
      hide RoomKey;
      if pushed {
        Write(roomID, Actions, List(Room(roomID).history + [action]));
      }
      if trimmed {
        Write(roomID, Actions, List(Last(Room(roomID).history, HISTORY_LIMIT)));
      }
      r := if answered then Ok(()) else Err(Unavailable);
    }

    method GetSnapshotCache(roomID: nat, net: Reply) returns (r: Result<Snapshot, Error>)
      requires Valid()
      ensures r == if net.Failed? then Err(Unavailable)
                   else if Room(roomID).cache.Some? then Ok(Room(roomID).cache.value)
                   else Err(NotFound)
    {
      hide RoomKey;
      if net.Failed? {
        return Err(Unavailable);
      }
      var v := Get(keyPrefix, store, roomID, Cached);
      r := if v.Some? && v.value.Snap? then Ok(v.value.snap) else Err(NotFound);
    }

    method SetSnapshotCache(roomID: nat, snapshot: Snapshot, net: Reply) returns (r: Result<(), Error>)
      requires Valid()
      modifies this`store
      ensures Valid() && SameElsewhere(keyPrefix, old(store), store, roomID)
      ensures Ops(roomID) == old(Ops(roomID))
      ensures Room(roomID) == if net.Executed() then SetCache(old(Room(roomID)), snapshot) else old(Room(roomID))
      ensures r == if net.Answered? then Ok(()) else Err(Unavailable)
    {
      hide RoomKey;
      if net.Executed() {
        Write(roomID, Cached, Snap(snapshot));
      }
      r := if net.Answered? then Ok(()) else Err(Unavailable);
    }

    method PublishAction(roomID: nat, action: Action, net: Reply) returns (r: Result<(), Error>)
      modifies this`published
      ensures published == if net.Executed() then
                old(published) + [Message(RoomKey(keyPrefix, roomID, PubSub), action)]
              else old(published)
      ensures r == if net.Answered? then Ok(()) else Err(Unavailable)
    {
      if net.Executed() {
        published := published + [Message(RoomKey(keyPrefix, roomID, PubSub), action)];
      }
      r := if net.Answered? then Ok(()) else Err(Unavailable);
    }

    /** A missing or unreadable time reads as the zero Time. */
    method GetLastSnapshotTime(roomID: nat, net: Reply) returns (r: Result<Time, Error>)
      requires Valid()
      ensures r == if net.Answered? then Ok(StoredTime(Room(roomID).lastTime)) else Err(Unavailable)
      ensures r.Ok? ==> var text := Room(roomID).lastTime;
        if text.None? || ParseInt(text.value).None? then r.value == None
        else r.value == Some(ParseInt(text.value).value * 1_000_000_000)
    {
      hide RoomKey;
      if net.Failed? {
        return Err(Unavailable);
      }
      var v := Get(keyPrefix, store, roomID, LastTime);
      r := Ok(StoredTime(if v.Some? && v.value.Text? then Some(v.value.text) else None));
    }

    method SetLastSnapshotTime(roomID: nat, t: int, net: Reply) returns (r: Result<(), Error>)
      requires Valid()
      modifies this`store
      ensures Valid() && SameElsewhere(keyPrefix, old(store), store, roomID)
      ensures Ops(roomID) == old(Ops(roomID))
      ensures Room(roomID) == if net.Executed() then
                old(Room(roomID)).(lastTime := Some(FormatInt(t / 1_000_000_000)))
              else old(Room(roomID))
      ensures r == if net.Answered? then Ok(()) else Err(Unavailable)
    {
      hide RoomKey, FormatInt;
      if net.Executed() {
        Write(roomID, LastTime, Text(FormatInt(t / SECOND)));
      }
      r := if net.Answered? then Ok(()) else Err(Unavailable);
    }

    /** One DEL of six keys; the Pub/Sub channel is not a key. */
    method CleanupRoomState(roomID: nat, net: Reply) returns (r: Result<(), Error>)
      requires Valid()
      modifies this`store
      ensures Valid() && SameElsewhere(keyPrefix, old(store), store, roomID)
      ensures Room(roomID) == if net.Executed() then RoomData(map[], 0, [], None, None) else old(Room(roomID))
      ensures Ops(roomID) == if net.Executed() then 0 else old(Ops(roomID))
      ensures r == if net.Answered? then Ok(()) else Err(Unavailable)
    {
      hide RoomKey;
      if net.Executed() {
        var kinds := {State, Version, OpCount, Actions, Cached, LastTime};
        DropWrites(keyPrefix, store, roomID, kinds);
        GetAfterDrop(keyPrefix, store, roomID, kinds, roomID, OpCount);
        store := Drop(keyPrefix, store, roomID, kinds);
      }
      r := if net.Answered? then Ok(()) else Err(Unavailable);
    }
  }

  /** The codec of the last snapshot time: Unix seconds in decimal. */
  function StoredTime(text: Option<string>): Time {
    if text.None? then None
    else
      var seconds := ParseInt(text.value);
      if seconds.None? then None else Some(seconds.value * SECOND)
  }

  /** Reading back a stored time gives it floored to the second. */
  lemma StoredTimeRoundTrip(t: int)
    requires -0x8000_0000_0000_0000 <= t / 1_000_000_000 <= 0x7FFF_FFFF_FFFF_FFFF
    ensures StoredTime(Some(FormatInt(t / 1_000_000_000))) == Some(t - t % 1_000_000_000)
  {
    ParseIntOfFormat(t / SECOND);
  }
}
