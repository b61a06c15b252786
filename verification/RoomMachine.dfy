/** One room under concurrency. Every goroutine that acts on the room is a
    little program of commands; a run is any sequence of their steps, of
    command failures, of clock ticks, cache expiries and room cleanups.

    `Step` is total: an event that is not enabled changes nothing. So a
    statement about `Run(es)` for every `es` is a statement about every
    interleaving. The fields `logs`, `bumps`, `published`, `lost`, `pushes`,
    `slack`, `wrote`, `unwritten`, `overlapped` and the epochs and positions kept
    in stages only record what happened; no step reads them to decide. */
module RoomMachine {
  import opened Wrappers
  import opened Domain
  import opened RoomData

  /** asynq's default `MaxRetry`. */
  const MAX_RETRY: nat := 25

  /** A validated client message, with its sender. */
  datatype Incoming = Incoming(userID: nat, actionType: string, data: DrawData) {
    predicate Valid() {
      actionType == "draw" || actionType == "erase"
    }
  }

  /** An applied action and the epoch (number of cleanups before it) it belongs to. */
  datatype Entry = Entry(epoch: nat, action: Action)

  /** Where a goroutine running handleClientAction is. */
  datatype Stage =
    | Received(input: Incoming)
    | Bumped(input: Incoming)
    | Applied(e: Entry)
    | Pushed(e: Entry, at: nat)
    | Recorded(e: Entry)
    | Published(e: Entry)
    | Completed(e: Entry)
    | Aborted

  datatype Task = Task(e: Entry, retries: nat)

  /** A board reading: the board after the first `at` actions of epoch `epoch`. */
  datatype BoardRead = BoardRead(epoch: nat, at: nat, board: BoardState)

  datatype VersionRead = VersionRead(epoch: nat, at: nat, version: nat)

  /** A generated snapshot with the readings it was made from. */
  datatype Taken = Taken(snap: Snapshot, b: BoardRead, v: VersionRead)

  /** Where a goroutine running generateSnapshot is. */
  datatype Gen =
    | HasBoard(b: BoardRead)
    | HasVersion(b: BoardRead, v: VersionRead)
    | Stamped(taken: Taken)
    | GenDone

  /** Where a goroutine running GetSnapshotForClient is. */
  datatype Query = Missed | Served(snap: Snapshot) | ServedEmpty | Refused

  /** The action goroutines, the task queue, the actions table, and what has been
      pushed, published and lost. */
  datatype Acts = Acts(
    threads: map<nat, Stage>,
    queue: seq<Task>,
    rows: seq<Entry>,
    pushes: seq<Action>,
    slack: nat,
    published: seq<Entry>,
    lost: set<Entry>)

  /** The snapshot goroutines, the snapshots table, and what has been written to
      the cache. */
  datatype Snaps = Snaps(
    gens: map<nat, Gen>,
    saved: seq<Taken>,
    queries: map<nat, Query>,
    writes: map<nat, Snapshot>,
    wrote: seq<Snapshot>,
    unwritten: set<Snapshot>,
    overlapped: bool)

  datatype Room = Room(
    id: nat,
    redis: RoomData,
    now: int,
    logs: seq<seq<Entry>>,
    bumps: nat,
    acts: Acts,
    snaps: Snaps)

  function Init(id: nat, now: int): Room {
    Room(id, EMPTY, now, [[]], 0, Acts(map[], [], [], [], 0, [], {}), Snaps(map[], [], map[], map[], [], {}, false))
  }

  datatype ActionEvent =
    | Receive(t: nat, input: Incoming)
    | Increment(t: nat, reply: Reply)
    | RunScript(t: nat, reply: Reply)
    | PushHistory(t: nat, executed: bool)
    | TrimHistory(t: nat, executed: bool)
    | Publish(t: nat, executed: bool)
    | Enqueue(t: nat, ok: bool)
    | Work(i: nat, inserted: bool, acknowledged: bool)

  datatype SnapshotEvent =
    | ReadBoard(g: nat, ok: bool)
    | ReadVersion(g: nat, ok: bool)
    | Stamp(g: nat)
    | Save(g: nat, w: nat, reply: Reply)
    | WriteCache(w: nat, reply: Reply)
    | ExpireCache
    | QueryCache(q: nat, ok: bool)
    | QueryDatabase(q: nat, w: nat, ok: bool)

  datatype Event =
    | OnAction(a: ActionEvent)
    | OnSnapshot(p: SnapshotEvent)
    | Tick(d: nat)
    | Cleanup

  function Epoch(s: Room): nat
    requires s.logs != []
  {
    |s.logs| - 1
  }

  function Log(s: Room): seq<Entry>
    requires s.logs != []
  {
    s.logs[Epoch(s)]
  }

  function Edits(log: seq<Entry>): (es: seq<Edit>)
    ensures |es| == |log|
    ensures forall i :: 0 <= i < |log| ==> es[i] == EditOf(log[i].action)
  {
    seq(|log|, i requires 0 <= i < |log| => EditOf(log[i].action))
  }

  // ----- handleClientAction and ProcessIncomingAction ------------------------

  function MakeAction(id: nat, i: Incoming, version: nat): Action {
    Action(id, i.userID, i.actionType, i.data, version)
  }

  function Goto(s: Room, t: nat, stage: Stage): Room {
    s.(acts := s.acts.(threads := s.acts.threads[t := stage]))
  }

  function DoReceive(s: Room, t: nat, i: Incoming): Room {
    if t in s.acts.threads then s
    else Goto(s, t, if i.Valid() then Received(i) else Aborted)
  }

  function DoIncrement(s: Room, t: nat, r: Reply): Room {
    if t in s.acts.threads && s.acts.threads[t].Received? then
      var s' := if r.Executed() then s.(redis := Bump(s.redis), bumps := s.bumps + 1) else s;
      Goto(s', t, if r.Answered? then Bumped(s.acts.threads[t].input) else Aborted)
    else s
  }

  /** The script runs: the action joins the epoch's log. If the answer is lost on
      the way back, the goroutine gives up and nobody will ever publish it. */
  function DoApply(s: Room, t: nat, r: Reply): Room
    requires s.logs != []
  {
    if t in s.acts.threads && s.acts.threads[t].Bumped? then
      if r.Executed() then
        var i := s.acts.threads[t].input;
        var e := Entry(Epoch(s), MakeAction(s.id, i, s.redis.version + 1));
        var s' := s.(redis := Script(s.redis, i.data), logs := s.logs[Epoch(s) := Log(s) + [e]]);
        if r.Answered? then Goto(s', t, Applied(e))
        else Goto(s'.(acts := s.acts.(lost := s.acts.lost + {e})), t, Aborted)
      else Goto(s, t, Aborted)
    else s
  }

  function DoPush(s: Room, t: nat, executed: bool): Room
    requires s.logs != []
  {
    if t in s.acts.threads && s.acts.threads[t].Applied? then
      var e := s.acts.threads[t].e;
      if executed then
        var s' := s.(redis := Push(s.redis, e.action), acts := s.acts.(pushes := s.acts.pushes + [e.action]));
        Goto(s', t, Pushed(e, Epoch(s)))
      else Goto(s, t, Recorded(e))
    else s
  }

  function DoTrim(s: Room, t: nat, executed: bool): Room
    requires s.logs != []
  {
    if t in s.acts.threads && s.acts.threads[t].Pushed? then
      var p := s.acts.threads[t];
      var s' :=
        if executed then s.(redis := Trim(s.redis), acts := s.acts.(slack := 0))
        else if p.at == Epoch(s) then s.(acts := s.acts.(slack := s.acts.slack + 1))
        else s;
      Goto(s', t, Recorded(p.e))
    else s
  }

  function DoPublish(s: Room, t: nat, executed: bool): Room {
    if t in s.acts.threads && s.acts.threads[t].Recorded? then
      var e := s.acts.threads[t].e;
      var s' := if executed then s.(acts := s.acts.(published := s.acts.published + [e])) else s;
      Goto(s', t, Published(e))
    else s
  }

  function DoEnqueue(s: Room, t: nat, ok: bool): Room {
    if t in s.acts.threads && s.acts.threads[t].Published? then
      var e := s.acts.threads[t].e;
      var s' :=
        if ok then s.(acts := s.acts.(queue := s.acts.queue + [Task(e, 0)]))
        else s.(acts := s.acts.(lost := s.acts.lost + {e}));
      Goto(s', t, Completed(e))
    else s
  }

  /** One delivery of task `i`: the row may be inserted, and the worker may or may
      not get to acknowledge it. A task that used up its retries is archived. */
  function DoWork(a: Acts, i: nat, inserted: bool, acknowledged: bool): Acts {
    if i < |a.queue| && (acknowledged ==> inserted) then
      var task := a.queue[i];
      var rows := if inserted then a.rows + [task.e] else a.rows;
      var rest := a.queue[..i] + a.queue[i + 1..];
      if acknowledged then a.(rows := rows, queue := rest)
      else if task.retries < MAX_RETRY then
        a.(rows := rows, queue := a.queue[i := Task(task.e, task.retries + 1)])
      else
        a.(rows := rows, queue := rest, lost := if task.e in rows then a.lost else a.lost + {task.e})
    else a
  }

  // ----- generateSnapshot -----------------------------------------------------

  predicate Generating(p: Snaps) {
    exists g :: g in p.gens && !p.gens[g].GenDone?
  }

  /** A failed board read counts as an empty board. */
  function DoReadBoard(s: Room, g: nat, ok: bool): Snaps
    requires s.logs != []
  {
    if g in s.snaps.gens then s.snaps
    else
      var b := if ok then BoardRead(Epoch(s), |Log(s)|, s.redis.board) else BoardRead(Epoch(s), 0, map[]);
      s.snaps.(gens := s.snaps.gens[g := HasBoard(b)], overlapped := s.snaps.overlapped || Generating(s.snaps))
  }

  function DoReadVersion(s: Room, g: nat, ok: bool): Snaps
    requires s.logs != []
  {
    if g in s.snaps.gens && s.snaps.gens[g].HasBoard? then
      var v := VersionRead(Epoch(s), |Log(s)|, s.redis.version);
      s.snaps.(gens := s.snaps.gens[g := if ok then HasVersion(s.snaps.gens[g].b, v) else GenDone])
    else s.snaps
  }

  function DoStamp(s: Room, g: nat): Snaps {
    if g in s.snaps.gens && s.snaps.gens[g].HasVersion? then
      var b, v := s.snaps.gens[g].b, s.snaps.gens[g].v;
      s.snaps.(gens := s.snaps.gens[g := Stamped(Taken(Snapshot(s.id, b.board, s.now, v.version), b, v))])
    else s.snaps
  }

  /** SaveSnapshot, and on success the start of the asynchronous cache write. */
  function DoSave(p: Snaps, g: nat, w: nat, r: Reply): Snaps {
    if g in p.gens && p.gens[g].Stamped? && w !in p.writes then
      var taken := p.gens[g].taken;
      var p' := p.(gens := p.gens[g := GenDone]);
      if r.Answered? then p'.(saved := p.saved + [taken], writes := p.writes[w := taken.snap])
      else if r.executed then p'.(saved := p.saved + [taken], unwritten := p.unwritten + {taken.snap})
      else p'
    else p
  }

  // ----- the snapshot cache ---------------------------------------------------

  function DoWriteCache(s: Room, w: nat, r: Reply): Room {
    if w in s.snaps.writes then
      var p, snap := s.snaps, s.snaps.writes[w];
      var p' := p.(writes := p.writes - {w});
      if r.Executed() then s.(redis := SetCache(s.redis, snap), snaps := p'.(wrote := p.wrote + [snap]))
      else s.(snaps := p'.(unwritten := p.unwritten + {snap}))
    else s
  }

  function DoQueryCache(s: Room, q: nat, ok: bool): Snaps {
    if q in s.snaps.queries then s.snaps
    else
      s.snaps.(queries := s.snaps.queries[q :=
        if ok && s.redis.cache.Some? then Served(s.redis.cache.value) else Missed])
  }

  /** GetLatestSnapshot: created_at descending, then the primary key ascending. */
  function Latest(saved: seq<Taken>): (r: Snapshot)
    requires saved != []
  {
    var n := |saved| - 1;
    if n == 0 then saved[0].snap
    else
      var best := Latest(saved[..n]);
      if saved[n].snap.createdAt > best.createdAt then saved[n].snap else best
  }

  function DoQueryDatabase(p: Snaps, q: nat, w: nat, ok: bool): Snaps {
    if q in p.queries && p.queries[q].Missed? && w !in p.writes then
      if !ok then p.(queries := p.queries[q := Refused])
      else if p.saved == [] then p.(queries := p.queries[q := ServedEmpty])
      else
        var snap := Latest(p.saved);
        p.(queries := p.queries[q := Served(snap)], writes := p.writes[w := snap])
    else p
  }

  // ----- runs ---------------------------------------------------------------------

  function ActionStep(s: Room, ev: ActionEvent): (s': Room)
    requires s.logs != []
    ensures !ev.RunScript? ==>
              && s'.logs == s.logs && s'.redis.board == s.redis.board
              && s'.redis.version - s.redis.version == s'.bumps - s.bumps >= 0
    ensures |s'.logs| == |s.logs|
    ensures s'.snaps == s.snaps && s'.now == s.now && s'.id == s.id && s'.redis.cache == s.redis.cache
  {
    match ev
    case Receive(t, input) => DoReceive(s, t, input)
    case Increment(t, r) => DoIncrement(s, t, r)
    case RunScript(t, r) => DoApply(s, t, r)
    case PushHistory(t, x) => DoPush(s, t, x)
    case TrimHistory(t, x) => DoTrim(s, t, x)
    case Publish(t, x) => DoPublish(s, t, x)
    case Enqueue(t, ok) => DoEnqueue(s, t, ok)
    case Work(i, ins, ack) => s.(acts := DoWork(s.acts, i, ins, ack))
  }

  function SnapshotStep(s: Room, ev: SnapshotEvent): (s': Room)
    requires s.logs != []
    ensures s' == s.(snaps := s'.snaps, redis := s.redis.(cache := s'.redis.cache))
  {
    match ev
    case ReadBoard(g, ok) => s.(snaps := DoReadBoard(s, g, ok))
    case ReadVersion(g, ok) => s.(snaps := DoReadVersion(s, g, ok))
    case Stamp(g) => s.(snaps := DoStamp(s, g))
    case Save(g, w, r) => s.(snaps := DoSave(s.snaps, g, w, r))
    case WriteCache(w, r) => DoWriteCache(s, w, r)
    case ExpireCache => s.(redis := s.redis.(cache := None))
    case QueryCache(q, ok) => s.(snaps := DoQueryCache(s, q, ok))
    case QueryDatabase(q, w, ok) => s.(snaps := DoQueryDatabase(s.snaps, q, w, ok))
  }

  /** CleanupRoomState deletes every key of the room; a new epoch begins. */
  function CleanupStep(s: Room): Room {
    s.(redis := EMPTY, logs := s.logs + [[]], bumps := 0, acts := s.acts.(pushes := [], slack := 0))
  }

  function Step(s: Room, ev: Event): (s': Room)
    requires s.logs != []
    ensures s'.logs != []
  {
    match ev
    case OnAction(a) => ActionStep(s, a)
    case OnSnapshot(p) => SnapshotStep(s, p)
    case Tick(d) => s.(now := s.now + d)
    case Cleanup => CleanupStep(s)
  }

  function Run(start: Room, es: seq<Event>): (s: Room)
    requires start.logs != []
    ensures s.logs != []
  {
    if es == [] then start else Step(Run(start, es[..|es| - 1]), es[|es| - 1])
  }

  /** Every state some run reaches. */
  ghost predicate Reachable(s: Room) {
    exists id, now, es :: s == Run(Init(id, now), es)
  }

  lemma InitReachable(id: nat, now: int)
    ensures Reachable(Init(id, now))
  {
    assert Init(id, now) == Run(Init(id, now), []);
  }

  lemma StepReachable(s: Room, ev: Event)
    requires Reachable(s)
    ensures Reachable(Step(s, ev))
  {
    var id, now, es :| s == Run(Init(id, now), es);
    var fs := es + [ev];
    assert fs[..|fs| - 1] == es;
    assert Step(s, ev) == Run(Init(id, now), fs);
  }
}
