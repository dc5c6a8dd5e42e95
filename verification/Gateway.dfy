/** The gateway as interleaved steps: one loop per connection, the FIFO queue they share, and
    the single router that drains it and keeps a record of each session. */
module Gateway {
  import opened Wrappers
  import opened Commands

  // --------------------------------------------------------------------- state

  datatype Record = Record(account: Option<Uuid>, character: Option<Uuid>, map_: Option<MapId>, inWorld: bool)

  /** Where a connection's loop stands. */
  datatype Loop = Running | Disconnecting | Finished

  datatype Message = RouteCommand(session: Uuid, command: ClientCommand) | Disconnect(gone: Uuid)

  /** Where the router stands in the command it has dequeued. */
  datatype Router =
    | Idle
    | Resolving(who: Uuid, what: ClientCommand)
    | Guarding(who: Uuid, what: ClientCommand, on: MapId)
    | Forwarding(who: Uuid, what: ClientCommand, on: MapId)
    | AwaitingWorld(who: Uuid, what: ClientCommand)
    | AwaitingAuth(who: Uuid, what: ClientCommand)
    | Dropping(who: Uuid)

  /** One request to the world service. */
  datatype Forwarded = Forwarded(session: Uuid, on: MapId, character: Option<Uuid>, command: ClientCommand)

  datatype State = State(
    records: map<Uuid, Record>,
    loops: map<Uuid, Loop>,
    phases: map<Uuid, Phase>,
    queue: seq<Message>,
    router: Router,
    forwarded: seq<Forwarded>,
    // history: the phase each session's dequeued commands lead to, and the record it had when
    // its first EnterWorld was dequeued
    routed: map<Uuid, Phase>,
    frozen: map<Uuid, Record>)

  const START := State(map[], map[], map[], [], Idle, [], map[], map[])

  // --------------------------------------------------------------------- steps

  datatype AuthReply =
    | Refused
    | LoginAccepted(account: Option<Uuid>)
    | Selected(character: Option<Uuid>, map_: Option<MapId>)
    | Deleted
    | Answered

  datatype Step =
    | Connect(fresh_: Uuid)
    | Enqueue(session: Uuid, command: ClientCommand)
    | Hangup(session: Uuid)
    | ReadError(session: Uuid)
    | RemoveOwnRecord(session: Uuid)
    | Dequeue
    | Resolve
    | Guard
    | Forward
    | WorldReply(ok: bool)
    | AuthReplied(reply: AuthReply)
    | DropRecord

  predicate IsAuthCommand(c: ClientCommand) {
    c.Login? || IsCharacterCommand(c)
  }

  /** Commands forwarded only for a session that is in the world, or is entering it. */
  predicate IsGuarded(c: ClientCommand) {
    c.EnterWorld? || IsGameplay(c)
  }

  predicate IsAuthenticated(s: State, id: Uuid) {
    id in s.records && s.records[id].account.Some?
  }

  predicate IsInWorld(s: State, id: Uuid) {
    id in s.records && s.records[id].inWorld && s.records[id].account.Some?
  }

  predicate IsCharacterSelected(s: State, id: Uuid) {
    id in s.records && s.records[id].character.Some? && s.records[id].account.Some?
  }

  function ResolveMap(s: State, id: Uuid): MapId {
    if id in s.records then s.records[id].map_.GetOr(1) else 1
  }

  predicate PassesGuard(s: State, id: Uuid, c: ClientCommand) {
    if IsCharacterCommand(c) then IsAuthenticated(s, id)
    else if c.EnterWorld? then IsCharacterSelected(s, id)
    else if IsGameplay(c) then IsInWorld(s, id)
    else true
  }

  function Remove(m: map<Uuid, Record>, id: Uuid): map<Uuid, Record> {
    m - {id}
  }

  /** How an answer of the auth service changes the session's record. */
  function AfterAuth(r: Record, c: ClientCommand, reply: AuthReply): Record {
    if c.Login? && reply.LoginAccepted? then Record(reply.account, None, None, false)
    else if c.CharacterSelect? && reply.Selected? then
      r.(character := reply.character, map_ := reply.map_, inWorld := false)
    else if c.CharacterDelete? && reply.Deleted? && r.character == Some(c.deleted) then
      r.(character := None, map_ := None, inWorld := false)
    else r
  }

  predicate Enabled(s: State, step: Step) {
    match step
    case Connect(id) => id !in s.loops
    case Enqueue(id, c) => id in s.loops && s.loops[id] == Running && id in s.phases && Accepts(s.phases[id], c)
    case Hangup(id) => id in s.loops && s.loops[id] == Running
    case ReadError(id) => id in s.loops && s.loops[id] == Running
    case RemoveOwnRecord(id) => id in s.loops && s.loops[id] == Disconnecting
    case Dequeue => s.router.Idle? && s.queue != []
    case Resolve => s.router.Resolving?
    case Guard => s.router.Guarding?
    case Forward => s.router.Forwarding?
    case WorldReply(_) => s.router.AwaitingWorld?
    case AuthReplied(_) => s.router.AwaitingAuth?
    case DropRecord => s.router.Dropping?
  }

  function AfterDequeue(s: State): State
    requires s.queue != []
  {
    var t := s.(queue := s.queue[1..]);
    match s.queue[0]
    case Disconnect(id) => t.(router := Dropping(id))
    case RouteCommand(id, c) =>
      t.(router := Resolving(id, c),
         routed := if id in s.routed then s.routed[id := NextPhase(s.routed[id], c)] else s.routed,
         frozen := if c.EnterWorld? && id !in s.frozen && id in s.records
                   then s.frozen[id := s.records[id]] else s.frozen)
  }

  function AfterGuard(s: State): State
    requires s.router.Guarding?
  {
    var Guarding(id, c, m) := s.router;
    if !PassesGuard(s, id, c) then s.(router := Idle)
    else if IsAuthCommand(c) then s.(router := AwaitingAuth(id, c))
    else s.(router := Forwarding(id, c, m))
  }

  function AfterWorldReply(s: State, ok: bool): State
    requires s.router.AwaitingWorld?
  {
    var AwaitingWorld(id, c) := s.router;
    if c.Logout? then s.(router := Dropping(id))
    else if c.EnterWorld? && ok && id in s.records then
      s.(router := Idle, records := s.records[id := s.records[id].(inWorld := true)])
    else s.(router := Idle)
  }

  function Apply(s: State, step: Step): State
    requires Enabled(s, step)
  {
    match step
    case Connect(id) =>
      s.(records := s.records[id := Record(None, None, None, false)], loops := s.loops[id := Running],
         phases := s.phases[id := PreAuth], routed := s.routed[id := PreAuth])
    case Enqueue(id, c) =>
      s.(phases := s.phases[id := NextPhase(s.phases[id], c)], queue := s.queue + [RouteCommand(id, c)])
    case Hangup(id) => s.(loops := s.loops[id := Disconnecting], queue := s.queue + [Disconnect(id)])
    case ReadError(id) => s.(loops := s.loops[id := Finished])
    case RemoveOwnRecord(id) => s.(loops := s.loops[id := Finished], records := Remove(s.records, id))
    case Dequeue => AfterDequeue(s)
    case Resolve => s.(router := Guarding(s.router.who, s.router.what, ResolveMap(s, s.router.who)))
    case Guard => AfterGuard(s)
    case Forward =>
      var Forwarding(id, c, m) := s.router;
      var character := if id in s.records then s.records[id].character else None;
      s.(router := AwaitingWorld(id, c), forwarded := s.forwarded + [Forwarded(id, m, character, c)])
    case WorldReply(ok) => AfterWorldReply(s, ok)
    case AuthReplied(reply) =>
      var AwaitingAuth(id, c) := s.router;
      if id in s.records
      then s.(router := Idle, records := s.records[id := AfterAuth(s.records[id], c, reply)])
      else s.(router := Idle)
    case DropRecord => s.(router := Idle, records := Remove(s.records, s.router.who))
  }

  // ------------------------------------------------------------ the invariant

  /** One session's commands still in the queue, oldest first. */
  function QueuedFor(queue: seq<Message>, id: Uuid): seq<ClientCommand>
    decreases |queue|
  {
    if queue == [] then []
    else if queue[0].RouteCommand? && queue[0].session == id then [queue[0].command] + QueuedFor(queue[1..], id)
    else QueuedFor(queue[1..], id)
  }

  lemma {:induction false} QueuedForSnoc(queue: seq<Message>, m: Message, id: Uuid)
    ensures QueuedFor(queue + [m], id)
         == QueuedFor(queue, id) + (if m.RouteCommand? && m.session == id then [m.command] else [])
    decreases |queue|
  {
    if queue == [] {
      assert [m][1..] == [] && queue + [m] == [m];
    } else {
      assert (queue + [m])[1..] == queue[1..] + [m];
      QueuedForSnoc(queue[1..], m, id);
    }
  }

  predicate Entered(p: Phase) {
    p == InWorld || p == Closed
  }

  /** Every connection's queue leads from where the router is to where the socket is. */
  ghost predicate QueueMatchesPhases(s: State) {
    && s.routed.Keys == s.phases.Keys == s.loops.Keys
    && s.records.Keys <= s.loops.Keys
    && (forall id :: id in s.phases ==> Run(s.routed[id], QueuedFor(s.queue, id)) == Some(s.phases[id]))
    && (forall i :: 0 <= i < |s.queue| && s.queue[i].RouteCommand? ==> s.queue[i].session in s.loops)
  }

  /** Once frozen, a session is past choosing a character and its record keeps its choice. */
  ghost predicate FrozenHolds(s: State) {
    && s.frozen.Keys <= s.routed.Keys
    && (forall id :: id in s.frozen ==> Entered(s.routed[id]))
    && (forall id :: id in s.frozen && id in s.records ==>
          s.records[id].character == s.frozen[id].character && s.records[id].map_ == s.frozen[id].map_)
    && (forall id :: id in s.records && s.records[id].inWorld ==>
          id in s.frozen && s.records[id].account.Some? && s.records[id].character.Some?)
  }

  /** What the router has already established about the command in its hands. */
  ghost predicate RouterHolds(s: State) {
    && (!s.router.Idle? && !s.router.Dropping? ==> s.router.who in s.loops)
    && (s.router.Resolving? || s.router.Guarding? || s.router.AwaitingAuth? ==>
          IsAuthCommand(s.router.what) ==> s.router.who !in s.frozen)
    && ((s.router.Resolving? || s.router.Guarding?) && s.router.what.EnterWorld? && s.router.who in s.records ==>
          s.router.who in s.frozen)
    && (s.router.Guarding? && s.router.who in s.records ==> s.router.on == ResolveMap(s, s.router.who))
    && (s.router.Forwarding? ==> !IsAuthCommand(s.router.what))
    && (s.router.Forwarding? && IsGuarded(s.router.what) ==>
          s.router.who in s.frozen && s.router.on == s.frozen[s.router.who].map_.GetOr(1))
    && (s.router.AwaitingAuth? ==> IsAuthCommand(s.router.what))
    && ((s.router.Forwarding? || s.router.AwaitingWorld?) && s.router.what.EnterWorld? ==>
          && s.router.who in s.frozen
          && (s.router.who in s.records ==>
                s.records[s.router.who].account.Some? && s.records[s.router.who].character.Some?))
  }

  /** Requests on behalf of sessions in the world name the frozen map and character. */
  ghost predicate ForwardedHolds(s: State) {
    forall i :: 0 <= i < |s.forwarded| && IsGuarded(s.forwarded[i].command) ==>
      var f := s.forwarded[i];
      && f.session in s.frozen
      && f.on == s.frozen[f.session].map_.GetOr(1)
      && (f.character == s.frozen[f.session].character || (f.character == None && f.session !in s.records))
  }

  ghost predicate Inv(s: State) {
    QueueMatchesPhases(s) && FrozenHolds(s) && RouterHolds(s) && ForwardedHolds(s)
  }

  // -------------------------------------------------------- every step keeps it

  lemma ConnectKeepsQueue(s: State, id: Uuid)
    requires QueueMatchesPhases(s) && Enabled(s, Connect(id))
    ensures QueueMatchesPhases(Apply(s, Connect(id)))
  {
    NothingQueuedFor(s.queue, id);
  }

  lemma ConnectKeepsRest(s: State, id: Uuid)
    requires FrozenHolds(s) && RouterHolds(s) && ForwardedHolds(s) && Enabled(s, Connect(id))
    requires id !in s.frozen && id !in s.records
    ensures FrozenHolds(Apply(s, Connect(id))) && RouterHolds(Apply(s, Connect(id))) && ForwardedHolds(Apply(s, Connect(id)))
  {
  }

  lemma ConnectKeepsInv(s: State, id: Uuid)
    requires Inv(s) && Enabled(s, Connect(id))
    ensures Inv(Apply(s, Connect(id)))
  {
    ConnectKeepsQueue(s, id);
    ConnectKeepsRest(s, id);
  }

  lemma {:induction false} NothingQueuedFor(queue: seq<Message>, id: Uuid)
    requires forall i :: 0 <= i < |queue| && queue[i].RouteCommand? ==> queue[i].session != id
    ensures QueuedFor(queue, id) == []
    decreases |queue|
  {
    if queue != [] {
      NothingQueuedFor(queue[1..], id);
    }
  }

  lemma EnqueueKeepsQueue(s: State, id: Uuid, c: ClientCommand)
    requires QueueMatchesPhases(s) && Enabled(s, Enqueue(id, c))
    ensures QueueMatchesPhases(Apply(s, Enqueue(id, c)))
  {
    var t := Apply(s, Enqueue(id, c));
    forall other | other in t.phases
      ensures Run(t.routed[other], QueuedFor(t.queue, other)) == Some(t.phases[other])
    {
      QueuedForSnoc(s.queue, RouteCommand(id, c), other);
      if other == id {
        RunSnoc(s.routed[id], QueuedFor(s.queue, id), c);
      } else {
        assert QueuedFor(s.queue, other) + [] == QueuedFor(s.queue, other);
      }
    }
  }

  lemma EnqueueKeepsInv(s: State, id: Uuid, c: ClientCommand)
    requires Inv(s) && Enabled(s, Enqueue(id, c))
    ensures Inv(Apply(s, Enqueue(id, c)))
  {
    EnqueueKeepsQueue(s, id, c);
  }

  lemma HangupKeepsInv(s: State, id: Uuid)
    requires Inv(s) && Enabled(s, Hangup(id))
    ensures Inv(Apply(s, Hangup(id)))
  {
    var t := Apply(s, Hangup(id));
    forall other | other in t.phases
      ensures Run(t.routed[other], QueuedFor(t.queue, other)) == Some(t.phases[other])
    {
      QueuedForSnoc(s.queue, Disconnect(id), other);
      assert QueuedFor(s.queue, other) + [] == QueuedFor(s.queue, other);
    }
  }

  /** The command at the head of the queue is one its session's routed phase accepts. */
  ghost predicate HeadIsAccepted(s: State) {
    && s.records.Keys <= s.routed.Keys == s.loops.Keys
    && (s.queue != [] && s.queue[0].RouteCommand? ==>
          s.queue[0].session in s.routed && Accepts(s.routed[s.queue[0].session], s.queue[0].command))
  }

  lemma DequeueKeepsQueue(s: State)
    requires Inv(s) && Enabled(s, Dequeue)
    ensures QueueMatchesPhases(Apply(s, Dequeue))
    ensures HeadIsAccepted(s)
  {
    var t := Apply(s, Dequeue);
    var m := s.queue[0];
    forall id | id in t.phases
      ensures Run(t.routed[id], QueuedFor(t.queue, id)) == Some(t.phases[id])
      ensures m.RouteCommand? && m.session == id ==> Accepts(s.routed[id], m.command)
    {
      if m.RouteCommand? && m.session == id {
        assert QueuedFor(s.queue, id)[1..] == QueuedFor(t.queue, id);
      }
    }
    assert m.RouteCommand? ==> m.session in t.phases;
  }

  lemma DequeueKeepsFrozen(s: State)
    requires Enabled(s, Dequeue) && HeadIsAccepted(s) && FrozenHolds(s)
    ensures FrozenHolds(Apply(s, Dequeue))
  {
  }

  lemma DequeueKeepsRouter(s: State)
    requires Enabled(s, Dequeue) && HeadIsAccepted(s) && FrozenHolds(s)
    ensures RouterHolds(Apply(s, Dequeue))
  {
  }

  lemma DequeueKeepsForwarded(s: State)
    requires Enabled(s, Dequeue) && ForwardedHolds(s)
    ensures ForwardedHolds(Apply(s, Dequeue))
  {
  }

  lemma ResolveKeepsInv(s: State)
    requires Inv(s) && Enabled(s, Resolve)
    ensures Inv(Apply(s, Resolve))
  {
  }

  lemma GuardKeepsRouter(s: State)
    requires FrozenHolds(s) && RouterHolds(s) && Enabled(s, Guard)
    ensures FrozenHolds(Apply(s, Guard)) && RouterHolds(Apply(s, Guard))
  {
  }

  lemma GuardKeepsInv(s: State)
    requires Inv(s) && Enabled(s, Guard)
    ensures Inv(Apply(s, Guard))
  {
    GuardKeepsRouter(s);
  }

  lemma ForwardKeepsInv(s: State)
    requires Inv(s) && Enabled(s, Forward)
    ensures Inv(Apply(s, Forward))
  {
  }

  lemma WorldReplyKeepsFrozen(s: State, ok: bool)
    requires FrozenHolds(s) && RouterHolds(s) && Enabled(s, WorldReply(ok))
    ensures FrozenHolds(Apply(s, WorldReply(ok))) && RouterHolds(Apply(s, WorldReply(ok)))
  {
  }

  lemma WorldReplyKeepsQueue(s: State, ok: bool)
    requires QueueMatchesPhases(s) && Enabled(s, WorldReply(ok))
    ensures QueueMatchesPhases(Apply(s, WorldReply(ok)))
  {
  }

  lemma WorldReplyKeepsForwarded(s: State, ok: bool)
    requires ForwardedHolds(s) && Enabled(s, WorldReply(ok))
    ensures ForwardedHolds(Apply(s, WorldReply(ok)))
  {
  }

  lemma AuthReplyKeepsFrozen(s: State, reply: AuthReply)
    requires FrozenHolds(s) && RouterHolds(s) && Enabled(s, AuthReplied(reply))
    ensures FrozenHolds(Apply(s, AuthReplied(reply))) && RouterHolds(Apply(s, AuthReplied(reply)))
  {
  }

  lemma AuthReplyKeepsInv(s: State, reply: AuthReply)
    requires Inv(s) && Enabled(s, AuthReplied(reply))
    ensures Inv(Apply(s, AuthReplied(reply)))
  {
    AuthReplyKeepsFrozen(s, reply);
  }

  lemma DropKeepsInv(s: State)
    requires Inv(s) && Enabled(s, DropRecord)
    ensures Inv(Apply(s, DropRecord))
  {
  }

  lemma LeavingKeepsInv(s: State, step: Step)
    requires Inv(s) && Enabled(s, step) && (step.ReadError? || step.RemoveOwnRecord?)
    ensures Inv(Apply(s, step))
  {
  }

  lemma DequeueKeepsInv(s: State)
    requires Inv(s) && Enabled(s, Dequeue)
    ensures Inv(Apply(s, Dequeue))
  {
    DequeueKeepsQueue(s);
    DequeueKeepsFrozen(s);
    DequeueKeepsRouter(s);
    DequeueKeepsForwarded(s);
  }

  lemma WorldReplyKeepsInv(s: State, ok: bool)
    requires Inv(s) && Enabled(s, WorldReply(ok))
    ensures Inv(Apply(s, WorldReply(ok)))
  {
    WorldReplyKeepsFrozen(s, ok);
    WorldReplyKeepsQueue(s, ok);
    WorldReplyKeepsForwarded(s, ok);
  }

  /** Every step of every connection's loop and of the router keeps the invariant. */
  lemma StepKeepsInv(s: State, step: Step)
    requires Inv(s) && Enabled(s, step)
    ensures Inv(Apply(s, step))
  {
    match step
    case Connect(id) => ConnectKeepsInv(s, id);
    case Enqueue(id, c) => EnqueueKeepsInv(s, id, c);
    case Hangup(id) => HangupKeepsInv(s, id);
    case ReadError(_) => LeavingKeepsInv(s, step);
    case RemoveOwnRecord(_) => LeavingKeepsInv(s, step);
    case Dequeue => DequeueKeepsInv(s);
    case Resolve => ResolveKeepsInv(s);
    case Guard => GuardKeepsInv(s);
    case Forward => ForwardKeepsInv(s);
    case WorldReply(ok) => WorldReplyKeepsInv(s, ok);
    case AuthReplied(reply) => AuthReplyKeepsInv(s, reply);
    case DropRecord => DropKeepsInv(s);
  }

  // ------------------------------------------------------------- over whole runs

  /** Any interleaving of steps, from the empty gateway. */
  ghost predicate IsRun(states: seq<State>, steps: seq<Step>) {
    && |states| == |steps| + 1 && states[0] == START
    && forall i :: 0 <= i < |steps| ==> StepAt(states, steps, i)
  }

  ghost predicate StepAt(states: seq<State>, steps: seq<Step>, i: nat) {
    && i < |steps| && i + 1 < |states|
    && Enabled(states[i], steps[i]) && states[i + 1] == Apply(states[i], steps[i])
  }

  lemma {:induction false} RunKeepsInv(states: seq<State>, steps: seq<Step>, i: nat)
    requires IsRun(states, steps) && i <= |steps|
    ensures Inv(states[i])
    decreases i
  {
    if i > 0 {
      RunKeepsInv(states, steps, i - 1);
      assert StepAt(states, steps, i - 1);
      StepKeepsInv(states[i - 1], steps[i - 1]);
    }
  }

  /** The router takes a session's EnterWorld off the queue. */
  predicate DequeuesEnterWorld(s: State, step: Step, id: Uuid) {
    step.Dequeue? && s.queue != [] && s.queue[0] == RouteCommand(id, EnterWorld)
  }

  lemma GuardAndReplyFreezeNothing(s: State, step: Step)
    requires Enabled(s, step) && (step.Guard? || step.WorldReply?)
    ensures Apply(s, step).frozen == s.frozen
  {
  }

  lemma OthersFreezeNothing(s: State, step: Step)
    requires Enabled(s, step) && !step.Dequeue? && !step.Guard? && !step.WorldReply?
    ensures Apply(s, step).frozen == s.frozen
  {
  }

  lemma StepKeepsFrozen(s: State, step: Step, id: Uuid)
    requires Enabled(s, step)
    ensures id in s.frozen ==> id in Apply(s, step).frozen && Apply(s, step).frozen[id] == s.frozen[id]
    ensures DequeuesEnterWorld(s, step, id) && id in s.records && id !in s.frozen ==>
              id in Apply(s, step).frozen && Apply(s, step).frozen[id] == s.records[id]
    ensures id !in s.frozen && id in Apply(s, step).frozen ==>
              DequeuesEnterWorld(s, step, id) && id in s.records && Apply(s, step).frozen[id] == s.records[id]
  {
    if step.Guard? || step.WorldReply? {
      GuardAndReplyFreezeNothing(s, step);
    } else if !step.Dequeue? {
      OthersFreezeNothing(s, step);
    }
  }

  /** The world's answer changes the router's hands and at most the session's own record. */
  lemma WorldReplyTouches(s: State, ok: bool)
    requires Enabled(s, WorldReply(ok))
    ensures var t := Apply(s, WorldReply(ok));
            && t == s.(router := t.router, records := t.records) && t.records.Keys == s.records.Keys
            && t.router == if s.router.what.Logout? then Dropping(s.router.who) else Idle
  {
    var AwaitingWorld(id, c) := s.router;
    if c.Logout? {
      assert AfterWorldReply(s, ok) == s.(router := Dropping(id));
    } else if c.EnterWorld? && ok && id in s.records {
      assert AfterWorldReply(s, ok) == s.(router := Idle, records := s.records[id := s.records[id].(inWorld := true)]);
    } else {
      assert AfterWorldReply(s, ok) == s.(router := Idle);
    }
  }

  lemma WorldReplyAddsNothing(s: State, ok: bool)
    requires Enabled(s, WorldReply(ok))
    ensures Apply(s, WorldReply(ok)).records.Keys == s.records.Keys && Apply(s, WorldReply(ok)).loops == s.loops
  {
    WorldReplyTouches(s, ok);
  }

  lemma AuthReplyAddsNothing(s: State, reply: AuthReply)
    requires Enabled(s, AuthReplied(reply))
    ensures Apply(s, AuthReplied(reply)).records.Keys == s.records.Keys && Apply(s, AuthReplied(reply)).loops == s.loops
  {
  }

  lemma OnlyConnectAdds(s: State, step: Step)
    requires Enabled(s, step) && !step.Connect? && !step.WorldReply? && !step.AuthReplied?
    ensures Apply(s, step).records.Keys <= s.records.Keys && s.loops.Keys <= Apply(s, step).loops.Keys
  {
  }

  lemma StepNeverRestores(s: State, step: Step, id: Uuid)
    requires Enabled(s, step) && id in s.loops
    ensures id in Apply(s, step).loops && (id in Apply(s, step).records ==> id in s.records)
  {
    if step.WorldReply? {
      WorldReplyAddsNothing(s, step.ok);
    } else if step.AuthReplied? {
      AuthReplyAddsNothing(s, step.reply);
    } else if !step.Connect? {
      OnlyConnectAdds(s, step);
    }
  }

  lemma FrozenAt(states: seq<State>, steps: seq<Step>, i: nat, id: Uuid)
    requires IsRun(states, steps) && i < |steps|
    ensures id in states[i].frozen ==> id in states[i + 1].frozen && states[i + 1].frozen[id] == states[i].frozen[id]
    ensures DequeuesEnterWorld(states[i], steps[i], id) && id in states[i].records && id !in states[i].frozen ==>
              id in states[i + 1].frozen && states[i + 1].frozen[id] == states[i].records[id]
    ensures id !in states[i].frozen && id in states[i + 1].frozen ==>
              DequeuesEnterWorld(states[i], steps[i], id) && id in states[i].records
              && states[i + 1].frozen[id] == states[i].records[id]
  {
    assert StepAt(states, steps, i);
    StepKeepsFrozen(states[i], steps[i], id);
  }

  lemma {:induction false} FrozenForever(states: seq<State>, steps: seq<Step>, i: nat, j: nat, id: Uuid)
    requires IsRun(states, steps) && i <= j <= |steps| && id in states[i].frozen
    ensures id in states[j].frozen && states[j].frozen[id] == states[i].frozen[id]
    decreases j
  {
    if i < j {
      FrozenForever(states, steps, i, j - 1, id);
      FrozenAt(states, steps, j - 1, id);
    }
  }

  /** A record that is gone stays gone. */
  lemma {:induction false} RecordsNeverReturn(states: seq<State>, steps: seq<Step>, i: nat, j: nat, id: Uuid)
    requires IsRun(states, steps) && i <= j <= |steps| && id in states[i].loops && id in states[j].records
    ensures id in states[i].records
    decreases j - i
  {
    if i < j {
      assert StepAt(states, steps, i);
      StepNeverRestores(states[i], steps[i], id);
      RecordsNeverReturn(states, steps, i + 1, j, id);
    }
  }

  /** From the moment a session's EnterWorld leaves the queue, its character and map stay as they
      were for as long as its record exists, whatever else happens. */
  lemma CharacterAndMapFreeze(states: seq<State>, steps: seq<Step>, k: nat, j: nat, id: Uuid)
    requires IsRun(states, steps) && k < j <= |steps|
    requires DequeuesEnterWorld(states[k], steps[k], id) && id in states[j].records
    ensures id in states[k].records
    ensures states[j].records[id].character == states[k].records[id].character
    ensures states[j].records[id].map_ == states[k].records[id].map_
  {
    RunKeepsInv(states, steps, k);
    RunKeepsInv(states, steps, j);
    RecordsNeverReturn(states, steps, k, j, id);
    FrozenAt(states, steps, k, id);
    FrozenForever(states, steps, k + 1, j, id);
  }

  lemma {:induction false} FreezeHasOrigin(states: seq<State>, steps: seq<Step>, j: nat, id: Uuid) returns (k: nat)
    requires IsRun(states, steps) && j <= |steps| && id in states[j].frozen
    ensures k < j && DequeuesEnterWorld(states[k], steps[k], id)
    ensures id in states[k].records && states[k].records[id] == states[j].frozen[id]
    decreases j
  {
    FrozenAt(states, steps, j - 1, id);
    if id in states[j - 1].frozen {
      k := FreezeHasOrigin(states, steps, j - 1, id);
    } else {
      k := j - 1;
    }
  }

  /** Every gameplay or EnterWorld request ever sent to the world names the map its session had
      when its EnterWorld left the queue, and carries the character it had then; it carries none
      only if the record was removed while the request was being routed. */
  lemma RequestsNameFrozenMap(states: seq<State>, steps: seq<Step>, j: nat, n: nat) returns (k: nat)
    requires IsRun(states, steps) && j <= |steps| && n < |states[j].forwarded|
    requires var c := states[j].forwarded[n].command;
             || c.EnterWorld? || c.Move? || c.Attack? || c.CastSkill? || c.PickupItem? || c.DropItem? || c.UseItem?
             || c.NpcInteraction? || c.Chat? || c.Whisper? || c.GuildChat?
    ensures k < j && DequeuesEnterWorld(states[k], steps[k], states[j].forwarded[n].session)
    ensures var f := states[j].forwarded[n];
            && f.session in states[k].records
            && f.on == states[k].records[f.session].map_.GetOr(1)
            && (f.character == states[k].records[f.session].character
                || (f.character == None && f.session !in states[j].records))
  {
    RunKeepsInv(states, steps, j);
    k := FreezeHasOrigin(states, steps, j, states[j].forwarded[n].session);
  }

  lemma {:induction false} EnteredIsFinal(p: Phase, w: seq<ClientCommand>)
    requires Entered(p) && Run(p, w).Some?
    ensures Entered(Run(p, w).value)
    decreases |w|
  {
    if w != [] {
      EnteredIsFinal(NextPhase(p, w[0]), w[1..]);
    }
  }

  /** A session recorded as in the world has an account and a character, and its connection has
      already passed its own EnterWorld. */
  lemma InWorldMeansEntered(states: seq<State>, steps: seq<Step>, j: nat, id: Uuid)
    requires IsRun(states, steps) && j <= |steps|
    requires id in states[j].records && states[j].records[id].inWorld
    ensures states[j].records[id].account.Some? && states[j].records[id].character.Some?
    ensures id in states[j].phases && Entered(states[j].phases[id])
  {
    RunKeepsInv(states, steps, j);
    EnteredIsFinal(states[j].routed[id], QueuedFor(states[j].queue, id));
  }

  /** Heartbeat and Logout are not guarded: routed without interruption they name the record's map
      and character, and with no record they fall back to map 1 and no character. */
  lemma UnguardedTarget(s: State, id: Uuid, c: ClientCommand)
    requires s.router.Idle? && s.queue != [] && s.queue[0] == RouteCommand(id, c) && (c.Heartbeat? || c.Logout?)
    ensures var t := Apply(Apply(Apply(Apply(s, Dequeue), Resolve), Guard), Forward);
            t.forwarded == s.forwarded + [
              if id in s.records then Forwarded(id, s.records[id].map_.GetOr(1), s.records[id].character, c)
              else Forwarded(id, 1, None, c)]
  {
  }

  /** Exactly when a command resolved for a session that has entered still names the session's map:
      its record is there, or the map is the fallback anyway. */
  lemma ResolvedMapIsKept(states: seq<State>, steps: seq<Step>, k: nat, id: Uuid)
    requires IsRun(states, steps) && k < |steps| && steps[k].Resolve?
    requires states[k].router.Resolving? && states[k].router.who == id && id in states[k].frozen
    ensures states[k + 1].router.Guarding?
    ensures states[k + 1].router.on == states[k].frozen[id].map_.GetOr(1)
       <==> id in states[k].records || states[k].frozen[id].map_.GetOr(1) == 1
  {
    RunKeepsInv(states, steps, k);
    assert StepAt(states, steps, k);
  }

  /** A connection that hangs up before its Logout is routed takes its record away first: the Logout
      then goes to map 1 with no character, wherever the session was. */
  lemma HangupOvertakesLogout(s: State, id: Uuid) returns (t: State)
    requires id in s.loops && s.loops[id] == Disconnecting
    requires s.router.Idle? && s.queue != [] && s.queue[0] == RouteCommand(id, Logout)
    ensures Enabled(s, RemoveOwnRecord(id)) && id !in Apply(s, RemoveOwnRecord(id)).records
    ensures t == Apply(Apply(Apply(Apply(Apply(s, RemoveOwnRecord(id)), Dequeue), Resolve), Guard), Forward)
    ensures t.forwarded == s.forwarded + [Forwarded(id, 1, None, Logout)]
  {
    var gone := Apply(s, RemoveOwnRecord(id));
    UnguardedTarget(gone, id, Logout);
    t := Apply(Apply(Apply(Apply(gone, Dequeue), Resolve), Guard), Forward);
  }

  lemma Extend(states: seq<State>, steps: seq<Step>, step: Step) returns (longer: seq<State>, more: seq<Step>)
    requires IsRun(states, steps) && Enabled(states[|steps|], step)
    ensures IsRun(longer, more) && |more| == |steps| + 1
    ensures longer[|more|] == Apply(states[|steps|], step)
  {
    longer, more := states + [Apply(states[|steps|], step)], steps + [step];
    assert forall i :: 0 <= i < |steps| ==> StepAt(states, steps, i) && StepAt(longer, more, i);
  }

  lemma RouteNext(states: seq<State>, steps: seq<Step>) returns (longer: seq<State>, more: seq<Step>)
    requires IsRun(states, steps)
    requires var s := states[|steps|];
             && s.router.Idle? && s.queue != [] && s.queue[0].RouteCommand?
             && PassesGuard(s, s.queue[0].session, s.queue[0].command)
    ensures IsRun(longer, more) && |more| == |steps| + 3
    ensures longer[|more|] == Apply(Apply(Apply(states[|steps|], Dequeue), Resolve), Guard)
  {
    longer, more := Extend(states, steps, Dequeue);
    longer, more := Extend(longer, more, Resolve);
    longer, more := Extend(longer, more, Guard);
  }

  const LOGIN := Login("u", "p", "")
  const CHOICE := Record(Some(5), Some(9), Some(7), false)

  lemma Asked() returns (states: seq<State>, steps: seq<Step>)
    ensures IsRun(states, steps)
    ensures var s := states[|steps|];
            && s.router.Idle? && s.queue == [RouteCommand(0, LOGIN)] && s.forwarded == []
            && s.records == map[0 := Record(None, None, None, false)]
            && s.loops == map[0 := Running] && s.phases == map[0 := PostAuth]
  {
    assert !IsBlank("u") by {
      assert !IsWhitespace("u"[0]);
    }
    states, steps := [START], [];
    states, steps := Extend(states, steps, Connect(0));
    states, steps := Extend(states, steps, Enqueue(0, LOGIN));
  }

  lemma LoggedIn() returns (states: seq<State>, steps: seq<Step>)
    ensures IsRun(states, steps)
    ensures var s := states[|steps|];
            && s.router.Idle? && s.queue == [] && s.forwarded == []
            && s.records == map[0 := Record(Some(5), None, None, false)]
            && s.loops == map[0 := Running] && s.phases == map[0 := PostAuth]
  {
    states, steps := Asked();
    states, steps := RouteNext(states, steps);
    states, steps := Extend(states, steps, AuthReplied(LoginAccepted(Some(5))));
  }

  lemma Chosen() returns (states: seq<State>, steps: seq<Step>)
    ensures IsRun(states, steps)
    ensures var s := states[|steps|];
            && s.router.Idle? && s.queue == [] && s.forwarded == []
            && s.records == map[0 := CHOICE] && s.loops == map[0 := Running] && s.phases == map[0 := InCharacterList]
  {
    states, steps := LoggedIn();
    states, steps := Extend(states, steps, Enqueue(0, CharacterSelect(9)));
    states, steps := RouteNext(states, steps);
    states, steps := Extend(states, steps, AuthReplied(Selected(Some(9), Some(7))));
  }

  lemma Arrived() returns (states: seq<State>, steps: seq<Step>)
    ensures IsRun(states, steps)
    ensures var s := states[|steps|];
            && s.router.Idle? && s.queue == [] && s.forwarded == [Forwarded(0, 7, Some(9), EnterWorld)]
            && 0 in s.records && s.loops == map[0 := Running] && s.phases == map[0 := InWorld]
  {
    states, steps := Chosen();
    states, steps := Extend(states, steps, Enqueue(0, EnterWorld));
    states, steps := RouteNext(states, steps);
    states, steps := Extend(states, steps, Forward);
    states, steps := Extend(states, steps, WorldReply(true));
  }

  lemma HungUp() returns (states: seq<State>, steps: seq<Step>)
    ensures IsRun(states, steps)
    ensures var s := states[|steps|];
            && s.router.Idle? && s.queue == [RouteCommand(0, Logout), Disconnect(0)]
            && s.forwarded == [Forwarded(0, 7, Some(9), EnterWorld)] && 0 !in s.records
  {
    states, steps := Arrived();
    states, steps := Extend(states, steps, Enqueue(0, Logout));
    states, steps := Extend(states, steps, Hangup(0));
    states, steps := Extend(states, steps, RemoveOwnRecord(0));
  }

  /** Such a run exists: a session enters map 7, and its Logout is sent to map 1. */
  lemma LogoutCanMissItsMap() returns (states: seq<State>, steps: seq<Step>)
    ensures IsRun(states, steps)
    ensures states[|steps|].forwarded == [Forwarded(0, 7, Some(9), EnterWorld), Forwarded(0, 1, None, Logout)]
  {
    states, steps := HungUp();
    states, steps := RouteNext(states, steps);
    states, steps := Extend(states, steps, Forward);
  }
}
