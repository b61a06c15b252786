/** The Redis keys of a room, and the data under one room's keys. */
module Keys {
  import opened Wrappers
  import opened Decimal
  import opened Domain
  import opened RoomData

  datatype Kind = State | Version | OpCount | Actions | Cached | LastTime | PubSub

  function KindName(k: Kind): string {
    match k
    case State => "state"
    case Version => "version"
    case OpCount => "op_count"
    case Actions => "actions"
    case Cached => "snapshot"
    case LastTime => "last_snapshot_time"
    case PubSub => "pubsub"
  }

  /** "%sroom:%d:<kind>" */
  function RoomKey(prefix: string, roomID: nat, k: Kind): string {
    (prefix + "room:") + (FormatInt(roomID) + ":" + KindName(k))
  }

  /** The literal text of a key, the room's number being in base ten. */
  lemma RoomKeyText(prefix: string, roomID: nat, k: Kind) returns (digits: string, name: string)
    ensures RoomKey(prefix, roomID, k) == prefix + "room:" + digits + ":" + name
    ensures digits != "" && AllDigits(digits) && Positional(digits) == roomID
    ensures name == (if k == State then "state" else if k == Version then "version" else if k == OpCount then "op_count"
                     else if k == Actions then "actions" else if k == Cached then "snapshot"
                     else if k == LastTime then "last_snapshot_time" else "pubsub")
  {
    hide FormatInt, Positional, AllDigits;
    digits, name := FormatInt(roomID), KindName(k);
    FormatIntSays(roomID);
    Assoc(prefix + "room:", digits, ":" + name);
    Assoc(prefix + "room:" + digits, ":", name);
  }

  lemma Assoc(a: string, b: string, c: string)
    ensures (a + b) + c == a + (b + c)
  {
  }

  lemma KindNamesDiffer(j: Kind, k: Kind)
    requires KindName(j) == KindName(k)
    ensures j == k
  {
    assert KindName(j)[0] == KindName(k)[0] && |KindName(j)| == |KindName(k)|;
  }

  /** No two rooms, and no two kinds of data, share a key. */
  lemma RoomKeyInjective(prefix: string, a: nat, j: Kind, b: nat, k: Kind)
    requires RoomKey(prefix, a, j) == RoomKey(prefix, b, k)
    ensures a == b && j == k
  {
    var head := prefix + "room:";
    var x, y := FormatInt(a) + ":" + KindName(j), FormatInt(b) + ":" + KindName(k);
    assert x == RoomKey(prefix, a, j)[|head|..] && y == RoomKey(prefix, b, k)[|head|..];
    FormatIntHasNo(a, ':');
    FormatIntHasNo(b, ':');
    SplitUnique(FormatInt(a), KindName(j), FormatInt(b), KindName(k), ':');
    FormatIntInjective(a, b);
    KindNamesDiffer(j, k);
  }

  datatype Value =
    | Hash(fields: BoardState)
    | Counter(n: nat)
    | List(items: seq<Action>)
    | Snap(snap: Snapshot)
    | Text(text: string)

  type Store = map<string, Value>

  predicate Fits(k: Kind, v: Value) {
    match k
    case State => v.Hash?
    case Version => v.Counter?
    case OpCount => v.Counter?
    case Actions => v.List?
    case Cached => v.Snap?
    case LastTime => v.Text?
    case PubSub => false
  }

  /** Every room key holds the Redis type its commands expect. */
  ghost predicate Typed(prefix: string, m: Store) {
    forall r: nat, k: Kind {:trigger RoomKey(prefix, r, k)} ::
      RoomKey(prefix, r, k) in m ==> Fits(k, m[RoomKey(prefix, r, k)])
  }

  function Get(prefix: string, m: Store, r: nat, k: Kind): Option<Value> {
    if RoomKey(prefix, r, k) in m then Some(m[RoomKey(prefix, r, k)]) else None
  }

  /** The data of one room: what GetBoardState, GetCurrentVersion and the other
      getters see, an absent key reading as empty. */
  function View(prefix: string, m: Store, r: nat): RoomData {
    var board := Get(prefix, m, r, State);
    var version := Get(prefix, m, r, Version);
    var actions := Get(prefix, m, r, Actions);
    var cached := Get(prefix, m, r, Cached);
    var last := Get(prefix, m, r, LastTime);
    RoomData(
      if board.Some? && board.value.Hash? then board.value.fields else map[],
      if version.Some? && version.value.Counter? then version.value.n else 0,
      if actions.Some? && actions.value.List? then actions.value.items else [],
      if cached.Some? && cached.value.Snap? then Some(cached.value.snap) else None,
      if last.Some? && last.value.Text? then Some(last.value.text) else None)
  }

  function Put(prefix: string, m: Store, r: nat, k: Kind, v: Value): Store {
    m[RoomKey(prefix, r, k) := v]
  }

  lemma GetAfterPut(prefix: string, m: Store, r: nat, k: Kind, v: Value, q: nat, j: Kind)
    ensures Get(prefix, Put(prefix, m, r, k, v), q, j)
         == if q == r && j == k then Some(v) else Get(prefix, m, q, j)
  {
    if RoomKey(prefix, q, j) == RoomKey(prefix, r, k) {
      RoomKeyInjective(prefix, q, j, r, k);
    }
  }

  /** No key of another room changed, nor any key that is not a room's. */
  ghost predicate SameElsewhere(prefix: string, m: Store, m': Store, r: nat) {
    && (forall q: nat, k: Kind :: q != r ==> Get(prefix, m', q, k) == Get(prefix, m, q, k))
    && (forall q: nat :: q != r ==> View(prefix, m', q) == View(prefix, m, q))
    && (forall x :: (forall q: nat, k: Kind :: x != RoomKey(prefix, q, k)) ==> (x in m <==> x in m') && (x in m ==> m'[x] == m[x]))
  }

  lemma ElsewhereChains(prefix: string, m0: Store, m1: Store, m2: Store, r: nat)
    requires SameElsewhere(prefix, m0, m1, r) && SameElsewhere(prefix, m1, m2, r)
    ensures SameElsewhere(prefix, m0, m2, r)
  {
    hide RoomKey, View, Get;
  }

  lemma ElsewhereItself(prefix: string, m: Store, r: nat)
    ensures SameElsewhere(prefix, m, m, r)
  {
  }

  function Absorb(d: RoomData, k: Kind, v: Value): RoomData
    requires Fits(k, v)
  {
    match k
    case State => d.(board := v.fields)
    case Version => d.(version := v.n)
    case Actions => d.(history := v.items)
    case Cached => d.(cache := Some(v.snap))
    case LastTime => d.(lastTime := Some(v.text))
    case _ => d
  }

  lemma PutTyped(prefix: string, m: Store, r: nat, k: Kind, v: Value)
    requires Typed(prefix, m) && Fits(k, v)
    ensures Typed(prefix, Put(prefix, m, r, k, v))
  {
    hide RoomKey;
    var m' := Put(prefix, m, r, k, v);
    forall q: nat, j: Kind | RoomKey(prefix, q, j) in m'
      ensures Fits(j, m'[RoomKey(prefix, q, j)])
    {
      GetAfterPut(prefix, m, r, k, v, q, j);
      assert Get(prefix, m', q, j).value == m'[RoomKey(prefix, q, j)];
    }
  }

  lemma SameGetsSameView(prefix: string, m: Store, m': Store, q: nat)
    requires forall j :: Get(prefix, m', q, j) == Get(prefix, m, q, j)
    ensures View(prefix, m', q) == View(prefix, m, q)
  {
    hide RoomKey;
  }

  lemma PutElsewhere(prefix: string, m: Store, r: nat, k: Kind, v: Value)
    ensures SameElsewhere(prefix, m, Put(prefix, m, r, k, v), r)
  {
    hide RoomKey;
    var m' := Put(prefix, m, r, k, v);
    forall q: nat, j: Kind | q != r ensures Get(prefix, m', q, j) == Get(prefix, m, q, j) {
      GetAfterPut(prefix, m, r, k, v, q, j);
    }
    forall q: nat | q != r
      ensures View(prefix, m', q) == View(prefix, m, q)
    {
      forall j ensures Get(prefix, m', q, j) == Get(prefix, m, q, j) {
        GetAfterPut(prefix, m, r, k, v, q, j);
      }
      SameGetsSameView(prefix, m, m', q);
    }
  }

  /** Writing one key of a room changes that part of that room and nothing else. */
  lemma PutWrites(prefix: string, m: Store, r: nat, k: Kind, v: Value)
    requires Typed(prefix, m) && Fits(k, v)
    ensures Typed(prefix, Put(prefix, m, r, k, v))
    ensures View(prefix, Put(prefix, m, r, k, v), r) == Absorb(View(prefix, m, r), k, v)
    ensures SameElsewhere(prefix, m, Put(prefix, m, r, k, v), r)
  {
    hide RoomKey;
    PutTyped(prefix, m, r, k, v);
    PutElsewhere(prefix, m, r, k, v);
    forall j
      ensures Get(prefix, Put(prefix, m, r, k, v), r, j) == if j == k then Some(v) else Get(prefix, m, r, j)
    {
      GetAfterPut(prefix, m, r, k, v, r, j);
    }
  }

  /** DEL of some kinds of one room. */
  function Drop(prefix: string, m: Store, r: nat, ks: set<Kind>): Store {
    m - set k | k in ks :: RoomKey(prefix, r, k)
  }

  lemma GetAfterDrop(prefix: string, m: Store, r: nat, ks: set<Kind>, q: nat, j: Kind)
    ensures Get(prefix, Drop(prefix, m, r, ks), q, j)
         == if q == r && j in ks then None else Get(prefix, m, q, j)
  {
    if exists k :: k in ks && RoomKey(prefix, q, j) == RoomKey(prefix, r, k) {
      var k :| k in ks && RoomKey(prefix, q, j) == RoomKey(prefix, r, k);
      RoomKeyInjective(prefix, q, j, r, k);
    }
  }

  lemma DropWrites(prefix: string, m: Store, r: nat, ks: set<Kind>)
    requires Typed(prefix, m)
    ensures Typed(prefix, Drop(prefix, m, r, ks))
    ensures var d, d' := View(prefix, m, r), View(prefix, Drop(prefix, m, r, ks), r);
            d' == RoomData(
              if State in ks then map[] else d.board,
              if Version in ks then 0 else d.version,
              if Actions in ks then [] else d.history,
              if Cached in ks then None else d.cache,
              if LastTime in ks then None else d.lastTime)
    ensures SameElsewhere(prefix, m, Drop(prefix, m, r, ks), r)
  {
    hide RoomKey;
    var m' := Drop(prefix, m, r, ks);
    forall q: nat, j: Kind
      ensures Get(prefix, m', q, j) == if q == r && j in ks then None else Get(prefix, m, q, j)
    {
      GetAfterDrop(prefix, m, r, ks, q, j);
    }
    forall q: nat, j: Kind | RoomKey(prefix, q, j) in m'
      ensures Fits(j, m'[RoomKey(prefix, q, j)])
    {
      assert RoomKey(prefix, q, j) in m;
    }
  }
}
