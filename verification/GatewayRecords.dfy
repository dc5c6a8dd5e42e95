/** The router's session records over whole runs: what each answer changes, when a record exists, and
    when its session is in the world. */
module GatewayRecords {
  import opened Wrappers
  import opened Commands
  import opened Gateway

  // ---------------------------------------------------------------- one answer

  /** What an answer of the auth service changes: an accepted login gives the account and forgets the
      rest, a selection gives character and map, the deletion of the character selected takes both
      away; every other answer leaves the record as it is, and every answer leaves all others. */
  lemma AuthAnswerDoes(s: State, reply: AuthReply)
    requires Enabled(s, AuthReplied(reply))
    ensures var t, id, c := Apply(s, AuthReplied(reply)), s.router.who, s.router.what;
            && t == s.(router := Idle, records := t.records) && t.records.Keys == s.records.Keys
            && (forall other :: other in s.records && other != id ==> t.records[other] == s.records[other])
            && (id in s.records ==>
                  var was, now := s.records[id], t.records[id];
                  && (c.Login? && reply.LoginAccepted? ==> now == Record(reply.account, None, None, false))
                  && (c.CharacterSelect? && reply.Selected? ==> now == Record(was.account, reply.character, reply.map_, false))
                  && (c.CharacterDelete? && reply.Deleted? && was.character == Some(c.deleted) ==>
                        now == Record(was.account, None, None, false))
                  && ((c.Login? && reply.LoginAccepted?) || (c.CharacterSelect? && reply.Selected?)
                      || (c.CharacterDelete? && reply.Deleted? && was.character == Some(c.deleted)) || now == was))
  {
  }

  /** What an answer of the world service changes: a session whose EnterWorld is accepted is in the
      world; a refusal, and any answer to another command, changes no record. A Logout's answer,
      whichever it is, leads to the removal of the record. */
  lemma WorldAnswerDoes(s: State, ok: bool)
    requires Enabled(s, WorldReply(ok))
    ensures var t, id, c := Apply(s, WorldReply(ok)), s.router.who, s.router.what;
            && t == s.(router := t.router, records := t.records) && t.records.Keys == s.records.Keys
            && (c.EnterWorld? && ok && id in s.records ==>
                  t.records == s.records[id := Record(s.records[id].account, s.records[id].character, s.records[id].map_, true)])
            && (!c.EnterWorld? || !ok ==> t.records == s.records)
            && t.router == if c.Logout? then Dropping(id) else Idle
  {
    WorldReplyTouches(s, ok);
  }

  /** The guards, command by command. */
  lemma GuardAsks(s: State, id: Uuid, c: ClientCommand)
    ensures c.Login? || c.Heartbeat? || c.Logout? ==> PassesGuard(s, id, c)
    ensures c.CharacterList? || c.CharacterCreate? || c.CharacterDelete? || c.CharacterSelect? ==>
              (PassesGuard(s, id, c) <==> id in s.records && s.records[id].account.Some?)
    ensures c.EnterWorld? ==>
              (PassesGuard(s, id, c) <==> id in s.records && s.records[id].account.Some? && s.records[id].character.Some?)
    ensures c.Move? || c.Attack? || c.CastSkill? || c.PickupItem? || c.DropItem? || c.UseItem? || c.NpcInteraction?
            || c.Chat? || c.Whisper? || c.GuildChat? ==>
              (PassesGuard(s, id, c) <==> id in s.records && s.records[id].account.Some? && s.records[id].inWorld)
  {
  }

  // ---------------------------------------------------------------- the router's way

  /** The router's own steps from here until it is idle, at most. */
  function Remaining(r: Router): nat {
    match r
    case Idle => 0
    case Resolving(_, _) => 5
    case Guarding(_, _, _) => 4
    case Forwarding(_, _, _) => 3
    case AwaitingWorld(_, _) => 2
    case AwaitingAuth(_, _) => 1
    case Dropping(_) => 1
  }

  predicate IsRouterStep(step: Step) {
    !step.Connect? && !step.Enqueue? && !step.Hangup? && !step.ReadError? && !step.RemoveOwnRecord?
  }

  /** The router takes up one message at a time and is done with it after five more steps at most;
      connections never touch what it has in its hands. */
  lemma RouterFinishes(s: State, step: Step)
    requires Enabled(s, step)
    ensures var t := Apply(s, step);
            && (step.Dequeue? ==> s.router.Idle? && !t.router.Idle?)
            && (IsRouterStep(step) && !step.Dequeue? ==> Remaining(t.router) < Remaining(s.router))
            && (!IsRouterStep(step) ==> t.router == s.router)
            && (step.DropRecord? ==> t.router.Idle?)
  {
    if step.WorldReply? {
      WorldReplyTouches(s, step.ok);
    }
  }

  /** It is never stuck: with a message in its hands, or one in the queue, it has a step to take. */
  lemma RouterGoesOn(s: State) returns (step: Step)
    requires !s.router.Idle? || s.queue != []
    ensures IsRouterStep(step) && Enabled(s, step)
  {
    step := match s.router
            case Idle => Dequeue
            case Resolving(_, _) => Resolve
            case Guarding(_, _, _) => Guard
            case Forwarding(_, _, _) => Forward
            case AwaitingWorld(_, _) => WorldReply(true)
            case AwaitingAuth(_, _) => AuthReplied(Refused)
            case Dropping(_) => DropRecord;
  }

  // ---------------------------------------------------------------- a connection's life

  /** A connection's loop runs from its start until a read error finishes it, or until it hangs up,
      enqueues its disconnect, and finishes by removing its own record; it never runs again. */
  lemma ConnectionLife(s: State, step: Step, id: Uuid)
    requires Enabled(s, step)
    ensures var t := Apply(s, step);
            && (id in s.loops ==> id in t.loops)
            && (id !in s.loops && id in t.loops ==> step == Connect(id) && t.loops[id] == Running)
            && (step == Hangup(id) ==>
                  s.loops[id] == Running && t.loops[id] == Disconnecting && t.queue == s.queue + [Disconnect(id)])
            && (step == ReadError(id) ==> s.loops[id] == Running && t.loops[id] == Finished && t.queue == s.queue)
            && (step == RemoveOwnRecord(id) ==>
                  s.loops[id] == Disconnecting && t.loops[id] == Finished && id !in t.records)
            && (id in s.loops && step != Hangup(id) && step != ReadError(id) && step != RemoveOwnRecord(id) ==>
                  t.loops[id] == s.loops[id])
  {
    if step.WorldReply? {
      WorldReplyTouches(s, step.ok);
    } else if step.AuthReplied? {
      AuthReplyAddsNothing(s, step.reply);
    }
  }

  // ---------------------------------------------------------------- when a record exists

  /** The step takes the session's record away. */
  predicate Removes(s: State, step: Step, id: Uuid) {
    step == RemoveOwnRecord(id) || (step.DropRecord? && s.router == Dropping(id))
  }

  /** The router goes to remove a record when it has dequeued the session's disconnect, or has the
      answer to its Logout, and at no other step. */
  lemma DropsAfterLogoutOrDisconnect(s: State, step: Step, id: Uuid)
    requires Enabled(s, step) && s.router != Dropping(id)
    ensures Apply(s, step).router == Dropping(id)
       <==> || (step.Dequeue? && s.queue[0] == Disconnect(id))
            || (step.WorldReply? && s.router == AwaitingWorld(id, Logout))
  {
    if step.WorldReply? {
      WorldReplyTouches(s, step.ok);
    }
  }

  lemma RecordAfterStep(s: State, step: Step, id: Uuid)
    requires Enabled(s, step)
    ensures var t := Apply(s, step);
            && (step == Connect(id) ==> id in t.records && t.records[id] == Record(None, None, None, false))
            && (Removes(s, step, id) ==> id !in t.records)
            && (step != Connect(id) && !Removes(s, step, id) ==> (id in t.records <==> id in s.records))
  {
    if step.WorldReply? {
      WorldReplyTouches(s, step.ok);
    } else if step.AuthReplied? {
      AuthReplyAddsNothing(s, step.reply);
    }
  }

  /** The session's record was made by step i and no step between that and j has taken it away. */
  ghost predicate MadeAt(states: seq<State>, steps: seq<Step>, i: nat, j: nat, id: Uuid)
    requires j <= |steps| && j <= |states|
  {
    i < j && steps[i] == Connect(id) && forall k :: i < k < j ==> !Removes(states[k], steps[k], id)
  }

  /** In every run a session has a record exactly from its connection until its own loop, its Logout
      or its disconnect removes it. */
  lemma {:induction false} RecordExistsIff(states: seq<State>, steps: seq<Step>, j: nat, id: Uuid)
    requires IsRun(states, steps) && j <= |steps|
    ensures id in states[j].records <==> exists i :: MadeAt(states, steps, i, j, id)
    decreases j
  {
    if j > 0 {
      RecordExistsIff(states, steps, j - 1, id);
      assert StepAt(states, steps, j - 1);
      RecordAfterStep(states[j - 1], steps[j - 1], id);
      if id in states[j].records {
        if steps[j - 1] == Connect(id) {
          assert MadeAt(states, steps, j - 1, j, id);
        } else {
          var i: nat :| MadeAt(states, steps, i, j - 1, id);
          assert MadeAt(states, steps, i, j, id);
        }
      }
      if i: nat :| MadeAt(states, steps, i, j, id) {
        if i < j - 1 {
          assert MadeAt(states, steps, i, j - 1, id);
          assert !Removes(states[j - 1], steps[j - 1], id);
        }
      }
    }
  }

  // ---------------------------------------------------------------- who is logged in

  /** The auth service accepts the session's login. */
  predicate LogsIn(s: State, step: Step, id: Uuid) {
    step.AuthReplied? && step.reply.LoginAccepted? && s.router.AwaitingAuth? && s.router.who == id && s.router.what.Login?
  }

  lemma AccountAfterStep(s: State, step: Step, id: Uuid)
    requires Enabled(s, step) && id in Apply(s, step).records && step != Connect(id)
    ensures id in s.records
    ensures Apply(s, step).records[id].account == if LogsIn(s, step, id) then step.reply.account else s.records[id].account
  {
    RecordAfterStep(s, step, id);
    if step.WorldReply? {
      WorldAnswerDoes(s, step.ok);
    } else if step.AuthReplied? {
      AuthAnswerDoes(s, step.reply);
    }
  }

  /** The last login accepted for the session before j is the one at step i. */
  ghost predicate LastLogin(states: seq<State>, steps: seq<Step>, i: nat, j: nat, id: Uuid)
    requires j <= |steps| && j <= |states|
  {
    i < j && LogsIn(states[i], steps[i], id) && forall k :: i < k < j ==> !LogsIn(states[k], steps[k], id)
  }

  ghost predicate NeverLoggedIn(states: seq<State>, steps: seq<Step>, j: nat, id: Uuid)
    requires j <= |steps| && j <= |states|
  {
    forall k :: 0 <= k < j ==> !LogsIn(states[k], steps[k], id)
  }

  lemma OnlyConnectedLogIn(states: seq<State>, steps: seq<Step>, k: nat, j: nat, id: Uuid)
    requires IsRun(states, steps) && k < j < |steps| && steps[j] == Connect(id)
    ensures !LogsIn(states[k], steps[k], id) && !AcceptsEntry(states[k], steps[k], id)
  {
    RunKeepsInv(states, steps, k);
    assert StepAt(states, steps, j);
    if id in states[k].loops {
      LoopsStay(states, steps, k, j, id);
    }
  }

  lemma {:induction false} LoopsStay(states: seq<State>, steps: seq<Step>, k: nat, j: nat, id: Uuid)
    requires IsRun(states, steps) && k <= j <= |steps| && id in states[k].loops
    ensures id in states[j].loops
    decreases j
  {
    if k < j {
      LoopsStay(states, steps, k, j - 1, id);
      assert StepAt(states, steps, j - 1);
      StepNeverRestores(states[j - 1], steps[j - 1], id);
    }
  }

  /** In every run a record's account is the one the last accepted login of its session gave, or none
      if none was accepted. */
  lemma {:induction false} AccountIsLastLogins(states: seq<State>, steps: seq<Step>, j: nat, id: Uuid) returns (i: nat)
    requires IsRun(states, steps) && j <= |steps| && id in states[j].records
    ensures if NeverLoggedIn(states, steps, j, id) then states[j].records[id].account == None
            else LastLogin(states, steps, i, j, id) && states[j].records[id].account == steps[i].reply.account
    decreases j
  {
    i := 0;
    assert StepAt(states, steps, j - 1);
    if steps[j - 1] == Connect(id) {
      RecordAfterStep(states[j - 1], steps[j - 1], id);
      forall k | 0 <= k < j
        ensures !LogsIn(states[k], steps[k], id)
      {
        if k < j - 1 {
          OnlyConnectedLogIn(states, steps, k, j - 1, id);
        }
      }
    } else {
      AccountAfterStep(states[j - 1], steps[j - 1], id);
      i := AccountIsLastLogins(states, steps, j - 1, id);
      if LogsIn(states[j - 1], steps[j - 1], id) {
        i := j - 1;
      }
    }
  }

  // ---------------------------------------------------------------- who is in the world

  /** The world service accepts the session's EnterWorld. */
  predicate AcceptsEntry(s: State, step: Step, id: Uuid) {
    step == WorldReply(true) && s.router == AwaitingWorld(id, EnterWorld)
  }

  lemma InWorldAfterStep(s: State, step: Step, id: Uuid)
    requires FrozenHolds(s) && RouterHolds(s) && Enabled(s, step)
    requires id in Apply(s, step).records && step != Connect(id)
    ensures id in s.records
    ensures Apply(s, step).records[id].inWorld <==> s.records[id].inWorld || AcceptsEntry(s, step, id)
  {
    RecordAfterStep(s, step, id);
    if step.WorldReply? {
      WorldAnswerDoes(s, step.ok);
    } else if step.AuthReplied? {
      AuthAnswerDoes(s, step.reply);
    }
  }

  ghost predicate EntryAccepted(states: seq<State>, steps: seq<Step>, j: nat, id: Uuid)
    requires j <= |steps| && j <= |states|
  {
    exists i :: 0 <= i < j && AcceptsEntry(states[i], steps[i], id)
  }

  /** In every run a session is recorded as in the world exactly if the world service has accepted an
      EnterWorld of it: nothing else puts it there, and nothing but the end of its record takes it out. */
  lemma {:induction false} InWorldIffAccepted(states: seq<State>, steps: seq<Step>, j: nat, id: Uuid)
    requires IsRun(states, steps) && j <= |steps| && id in states[j].records
    ensures states[j].records[id].inWorld <==> EntryAccepted(states, steps, j, id)
    decreases j
  {
    var s, step := states[j - 1], steps[j - 1];
    assert StepAt(states, steps, j - 1);
    if step == Connect(id) {
      RecordAfterStep(s, step, id);
      forall k | 0 <= k < j
        ensures !AcceptsEntry(states[k], steps[k], id)
      {
        if k < j - 1 {
          OnlyConnectedLogIn(states, steps, k, j - 1, id);
        }
      }
    } else {
      RunKeepsInv(states, steps, j - 1);
      InWorldAfterStep(s, step, id);
      InWorldIffAccepted(states, steps, j - 1, id);
      assert EntryAccepted(states, steps, j, id) <==> EntryAccepted(states, steps, j - 1, id) || AcceptsEntry(s, step, id);
    }
  }
}
