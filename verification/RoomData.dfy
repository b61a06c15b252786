/** What Redis keeps for one room, and what each command does to it. */
module RoomData {
  import opened Wrappers
  import opened Domain
  import Board

  const HISTORY_LIMIT: nat := 100

  datatype RoomData = RoomData(
    board: BoardState,
    version: nat,
    history: seq<Action>,
    cache: Option<Snapshot>,
    lastTime: Option<string>)

  const EMPTY := RoomData(map[], 0, [], None, None)

  /** INCR on the version key. */
  function Bump(d: RoomData): RoomData {
    d.(version := d.version + 1)
  }

  /** The apply script: HSET or HDEL by colour, then INCR. */
  function Script(d: RoomData, data: DrawData): RoomData {
    d.(board := Board.Write(d.board, FieldKey(data.x, data.y), data.color), version := d.version + 1)
  }

  /** The last `n` entries, or all of a shorter list. */
  function Last<T>(xs: seq<T>, n: nat): seq<T> {
    if |xs| <= n then xs else xs[|xs| - n..]
  }

  /** RPUSH on the history list. */
  function Push(d: RoomData, a: Action): RoomData {
    d.(history := d.history + [a])
  }

  /** LTRIM -100 -1 on the history list. */
  function Trim(d: RoomData): RoomData {
    d.(history := Last(d.history, HISTORY_LIMIT))
  }

  function SetCache(d: RoomData, s: Snapshot): RoomData {
    d.(cache := Some(s))
  }
}
