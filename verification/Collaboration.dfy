/** CollaborationService.ProcessIncomingAction, and its agreement with the
    goroutine of RoomMachine. */
module Collaboration {
  import opened Wrappers
  import opened Domain
  import opened RoomData
  import opened RoomMachine
  import Keys
  import Redis = RedisStateRepository

  /** The fates of the commands of one call, in order. */
  datatype Fates = Fates(
    increment: Reply,
    script: Reply,
    pushed: bool,
    trimmed: bool,
    recorded: bool,
    count: Reply,
    publish: Reply)
  {
    predicate Possible() {
      (trimmed ==> pushed) && (recorded ==> trimmed)
    }
  }

  /** What a call leaves of the room, and what it answers. */
  datatype Outcome = Outcome(room: RoomData, result: Result<Action, Redis.Error>)

  function Process(d: RoomData, roomID: nat, input: Option<Incoming>, f: Fates): Outcome {
    if input.None? || !input.value.Valid() then Outcome(d, Err(Redis.InvalidAction))
    else
      var i := input.value;
      var d1 := if f.increment.Executed() then Bump(d) else d;
      if f.increment.Failed? then Outcome(d1, Err(Redis.Internal))
      else
        var d2 := if f.script.Executed() then Script(d1, i.data) else d1;
        if f.script.Failed? then Outcome(d2, Err(Redis.Internal))
        else
          var a := MakeAction(roomID, i, d1.version + 1);
          var d3 := if f.pushed then Push(d2, a) else d2;
          Outcome(if f.trimmed then Trim(d3) else d3, Ok(a))
  }

  predicate ValidInput(input: Option<Incoming>) {
    input.Some? && (input.value.actionType == "draw" || input.value.actionType == "erase")
  }

  /** Whose action it is, what it says, and what it left: the answered action is the
      sender's message under the room's number and the version the script answered. */
  lemma ProcessMeans(d: RoomData, roomID: nat, input: Option<Incoming>, f: Fates)
    ensures var o := Process(d, roomID, input, f);
      && (o.result == Err(Redis.InvalidAction) <==> !ValidInput(input))
      && (o.result.Ok? <==> ValidInput(input) && f.increment.Answered? && f.script.Answered?)
    ensures var o := Process(d, roomID, input, f); o.result.Ok? ==>
      var a := o.result.value;
      && a.roomID == roomID && a.userID == input.value.userID
      && a.actionType == input.value.actionType && a.data == input.value.data
      && a.version == d.version + 2 == o.room.version
    ensures var o := Process(d, roomID, input, f);
      var counted := ValidInput(input) && f.increment.Executed();
      var applied := ValidInput(input) && f.increment.Answered? && f.script.Executed();
      var h := if o.result.Ok? && f.pushed then d.history + [o.result.value] else d.history;
      && o.room == d.(version := o.room.version, board := o.room.board, history := o.room.history)
      && o.room.version == d.version + (if counted then 1 else 0) + (if applied then 1 else 0)
      && o.room.board == (if !applied then d.board
                          else var e := input.value.data;
                            if e.color == "" then d.board - {FieldKey(e.x, e.y)}
                            else d.board[FieldKey(e.x, e.y) := e.color])
      && o.room.history == if o.result.Ok? && f.trimmed && |h| > 100 then h[|h| - 100..] else h
  {
    hide FieldKey;
  }

  class CollaborationService {
    const stateRepo: Redis.RedisStateRepository

    constructor (repo: Redis.RedisStateRepository)
      ensures stateRepo == repo
    {
      stateRepo := repo;
    }

    /** `input` is None when the message does not decode. Failures after the script
        are logged and do not stop the action. */
    method ProcessIncomingAction(roomID: nat, input: Option<Incoming>, f: Fates)
      returns (r: Result<Action, Redis.Error>)
      requires stateRepo.Valid() && f.Possible()
      modifies stateRepo
      ensures stateRepo.Valid()
      ensures Outcome(stateRepo.Room(roomID), r) == Process(old(stateRepo.Room(roomID)), roomID, input, f)
      ensures r.Ok? <==> ValidInput(input) && f.increment.Answered? && f.script.Answered?
      ensures r.Ok? ==>
                && r.value.roomID == roomID && r.value.userID == input.value.userID
                && r.value.actionType == input.value.actionType && r.value.data == input.value.data
                && r.value.version == old(stateRepo.Room(roomID)).version + 2 == stateRepo.Room(roomID).version
      ensures stateRepo.Ops(roomID) == old(stateRepo.Ops(roomID)) + if r.Ok? && f.count.Executed() then 1 else 0
      ensures forall q: nat :: q != roomID ==> stateRepo.Room(q) == old(stateRepo.Room(q))
      ensures stateRepo.published ==
                if r.Ok? && f.publish.Executed() then
                  old(stateRepo.published)
                  + [Redis.Message(Keys.RoomKey(stateRepo.keyPrefix, roomID, Keys.PubSub), r.value)]
                else old(stateRepo.published)
    {
      hide Keys.RoomKey, Keys.View, Script, Push, Trim, Bump;
      ProcessMeans(stateRepo.Room(roomID), roomID, input, f);
      if input.None? || !(input.value.actionType == "draw" || input.value.actionType == "erase") {
        return Err(Redis.InvalidAction);
      }
      var i := input.value;
      var newVersion := stateRepo.IncrementVersion(roomID, f.increment);
      if newVersion.Err? {
        return Err(Redis.Internal);
      }
      newVersion := stateRepo.ApplyActionDataAndIncrementVersionAtomically(roomID, i.actionType, i.data, f.script);
      if newVersion.Err? {
        return Err(Redis.Internal);
      }
      var action := Action(roomID, i.userID, i.actionType, i.data, newVersion.value);
      Record(roomID, action, f);
      r := Ok(action);
    }

    /** The history, the operation counter and the publication; failures are logged. */
    method Record(roomID: nat, action: Action, f: Fates)
      requires stateRepo.Valid() && f.Possible()
      modifies stateRepo
      ensures stateRepo.Valid()
      ensures stateRepo.Room(roomID) == var d := old(stateRepo.Room(roomID));
                if f.trimmed then Trim(Push(d, action)) else if f.pushed then Push(d, action) else d
      ensures forall q: nat :: q != roomID ==> stateRepo.Room(q) == old(stateRepo.Room(q))
      ensures stateRepo.Ops(roomID) == old(stateRepo.Ops(roomID)) + if f.count.Executed() then 1 else 0
      ensures stateRepo.published == old(stateRepo.published) +
                if f.publish.Executed() then
                  [Redis.Message(Keys.RoomKey(stateRepo.keyPrefix, roomID, Keys.PubSub), action)]
                else []
    {
      hide Keys.RoomKey, Keys.View, Push, Trim;
      var recorded := stateRepo.PushActionToHistory(roomID, action, f.pushed, f.trimmed, f.recorded);
      var counted := stateRepo.IncrementOpCount(roomID, f.count);
      var announced := stateRepo.PublishAction(roomID, action, f.publish);
    }
  }

  function Opening(s: Room, t: nat, i: Incoming, f: Fates): (s': Room)
    requires s.logs != []
    ensures s'.logs != []
  {
    Step(Step(s, OnAction(Receive(t, i))), OnAction(Increment(t, f.increment)))
  }

  function Closing(s: Room, t: nat, f: Fates): (s': Room)
    requires s.logs != []
    ensures s'.logs != []
  {
    Step(Step(Step(s, OnAction(PushHistory(t, f.pushed))),
              OnAction(TrimHistory(t, f.trimmed))),
         OnAction(Publish(t, f.publish.Executed())))
  }

  /** The schedule in which goroutine `t` runs from reception to publication with
      nobody else moving. */
  function Alone(s: Room, t: nat, i: Incoming, f: Fates): Room
    requires s.logs != []
  {
    Closing(Step(Opening(s, t, i, f), OnAction(RunScript(t, f.script))), t, f)
  }

  lemma OpeningDone(s: Room, t: nat, i: Incoming, f: Fates)
    requires s.logs != [] && t !in s.acts.threads
    ensures var s' := Opening(s, t, i, f);
            && s'.logs == s.logs && s'.id == s.id && t in s'.acts.threads
            && s'.redis == (if i.Valid() && f.increment.Executed() then Bump(s.redis) else s.redis)
            && s'.acts.threads[t] == (if i.Valid() && f.increment.Answered? then Bumped(i) else Aborted)
            && s'.acts.published == s.acts.published
  {
    hide DoApply, DoPush, DoTrim, DoPublish, DoEnqueue, DoWork, SnapshotStep;
  }

  lemma ScriptDone(s: Room, t: nat, i: Incoming, r: Reply)
    requires s.logs != [] && t in s.acts.threads && s.acts.threads[t] == Bumped(i)
    ensures var s' := Step(s, OnAction(RunScript(t, r)));
            && t in s'.acts.threads
            && s'.redis == (if r.Executed() then Script(s.redis, i.data) else s.redis)
            && s'.acts.threads[t] == (if r.Answered? then
                                        Applied(Entry(Epoch(s), MakeAction(s.id, i, s.redis.version + 1)))
                                      else Aborted)
            && s'.acts.published == s.acts.published
  {
    hide FieldKey, DoReceive, DoIncrement, DoPush, DoTrim, DoPublish, DoEnqueue, DoWork, SnapshotStep;
  }

  lemma ClosingDone(s: Room, t: nat, e: Entry, f: Fates)
    requires s.logs != [] && t in s.acts.threads && s.acts.threads[t] == Applied(e) && f.Possible()
    ensures var s' := Closing(s, t, f);
            var d := if f.pushed then Push(s.redis, e.action) else s.redis;
            && t in s'.acts.threads && s'.acts.threads[t] == Published(e)
            && s'.redis == (if f.trimmed then Trim(d) else d)
            && s'.acts.published == s.acts.published + if f.publish.Executed() then [e] else []
  {
    hide DoReceive, DoIncrement, DoApply, DoEnqueue, DoWork, SnapshotStep, Last;
  }

  lemma AbortedStays(s: Room, t: nat, f: Fates)
    requires s.logs != [] && t in s.acts.threads && s.acts.threads[t] == Aborted
    ensures Step(s, OnAction(RunScript(t, f.script))) == s && Closing(s, t, f) == s
  {
  }

  /** An uninterrupted call is a piece of a run of the machine, with the same room
      data, the same verdict and the same publication. */
  lemma CallIsSchedule(s: Room, t: nat, i: Incoming, f: Fates)
    requires Reachable(s) && t !in s.acts.threads && f.Possible()
    ensures var s' := Alone(s, t, i, f);
            var o := Process(s.redis, s.id, Some(i), f);
            && Reachable(s') && s'.redis == o.room && t in s'.acts.threads
            && s'.acts.threads[t] == (if o.result.Ok? then Published(Entry(Epoch(s), o.result.value)) else Aborted)
            && s'.acts.published == s.acts.published +
                 if o.result.Ok? && f.publish.Executed() then [Entry(Epoch(s), o.result.value)] else []
  {
    hide Step, Script, Push, Trim, Bump;
    OpeningDone(s, t, i, f);
    var s1 := Step(s, OnAction(Receive(t, i)));
    StepReachable(s, OnAction(Receive(t, i)));
    var s2 := Opening(s, t, i, f);
    StepReachable(s1, OnAction(Increment(t, f.increment)));
    var s3 := Step(s2, OnAction(RunScript(t, f.script)));
    StepReachable(s2, OnAction(RunScript(t, f.script)));
    if s2.acts.threads[t].Aborted? {
      AbortedStays(s2, t, f);
    } else {
      ScriptDone(s2, t, i, f.script);
      if s3.acts.threads[t].Aborted? {
        AbortedStays(s3, t, f);
      } else {
        ClosingDone(s3, t, s3.acts.threads[t].e, f);
      }
    }
    var s4 := Step(s3, OnAction(PushHistory(t, f.pushed)));
    StepReachable(s3, OnAction(PushHistory(t, f.pushed)));
    var s5 := Step(s4, OnAction(TrimHistory(t, f.trimmed)));
    StepReachable(s4, OnAction(TrimHistory(t, f.trimmed)));
    StepReachable(s5, OnAction(Publish(t, f.publish.Executed())));
  }
}
