/** What becomes of each command at the gateway: the runs of Gateway with a history of what was
    enqueued and, for each message dequeued, the guard's verdict and the request sent. */
module GatewayLog {
  import opened Wrappers
  import opened Commands
  import opened Gateway
  import opened GatewayRecords

  /** One dequeued message: what the guard said of its command, and the request sent for it. */
  datatype Entry = Entry(message: Message, passed: Option<bool>, request: Option<Forwarded>)

  datatype Trace = Trace(state: State, enqueued: seq<Message>, log: seq<Entry>)

  /** The entry of the message in the router's hands. */
  function Last(log: seq<Entry>): Entry {
    if log == [] then Entry(Disconnect(0), None, None) else log[|log| - 1]
  }

  function WithLast(log: seq<Entry>, e: Entry): seq<Entry> {
    if log == [] then [] else log[|log| - 1 := e]
  }

  /** The request for the command in the router's hands, as the records are now. */
  function RequestNow(s: State): Forwarded
    requires s.router.Forwarding?
  {
    var Forwarding(id, c, m) := s.router;
    Forwarded(id, m, if id in s.records then s.records[id].character else None, c)
  }

  function NewEnqueued(enqueued: seq<Message>, step: Step): seq<Message> {
    match step
    case Enqueue(id, c) => enqueued + [RouteCommand(id, c)]
    case Hangup(id) => enqueued + [Disconnect(id)]
    case _ => enqueued
  }

  function NewLog(s: State, log: seq<Entry>, step: Step): seq<Entry>
    requires Enabled(s, step)
  {
    match step
    case Dequeue => log + [Entry(s.queue[0], None, None)]
    case Guard => WithLast(log, Last(log).(passed := Some(PassesGuard(s, s.router.who, s.router.what))))
    case Forward => WithLast(log, Last(log).(request := Some(RequestNow(s))))
    case _ => log
  }

  function Extended(t: Trace, step: Step): Trace
    requires Enabled(t.state, step)
  {
    Trace(Apply(t.state, step), NewEnqueued(t.enqueued, step), NewLog(t.state, t.log, step))
  }

  /** The trace of a run, step by step. */
  ghost predicate IsTrace(traces: seq<Trace>, states: seq<State>, steps: seq<Step>) {
    && IsRun(states, steps) && |traces| == |states| && traces[0] == Trace(START, [], [])
    && forall i :: 0 <= i < |steps| ==> TraceAt(traces, states, steps, i)
  }

  ghost predicate TraceAt(traces: seq<Trace>, states: seq<State>, steps: seq<Step>, i: nat) {
    && i < |steps| && i + 1 < |traces| && i + 1 < |states|
    && traces[i].state == states[i] && Enabled(states[i], steps[i]) && traces[i + 1] == Extended(traces[i], steps[i])
    && traces[i + 1].state == states[i + 1]
  }

  /** The traces of the first n steps of a run. */
  lemma {:induction false} PartialTrace(states: seq<State>, steps: seq<Step>, n: nat) returns (traces: seq<Trace>)
    requires IsRun(states, steps) && n <= |steps|
    ensures |traces| == n + 1 && traces[0] == Trace(START, [], []) && traces[n].state == states[n]
    ensures forall i :: 0 <= i < n ==> TraceAt(traces, states, steps, i)
    decreases n
  {
    if n == 0 {
      traces := [Trace(START, [], [])];
    } else {
      var before := PartialTrace(states, steps, n - 1);
      assert StepAt(states, steps, n - 1);
      traces := before + [Extended(before[n - 1], steps[n - 1])];
      assert forall i :: 0 <= i < n - 1 ==> TraceAt(before, states, steps, i) && TraceAt(traces, states, steps, i);
    }
  }

  /** Every run has one. */
  lemma EveryRunHasATrace(states: seq<State>, steps: seq<Step>) returns (traces: seq<Trace>)
    requires IsRun(states, steps)
    ensures IsTrace(traces, states, steps)
  {
    traces := PartialTrace(states, steps, |steps|);
  }

  // -------------------------------------------------------------- what a log says

  function Messages(log: seq<Entry>): (messages: seq<Message>)
    ensures |messages| == |log| && forall i :: 0 <= i < |log| ==> messages[i] == log[i].message
  {
    seq(|log|, i requires 0 <= i < |log| => log[i].message)
  }

  function Requests(log: seq<Entry>): seq<Forwarded>
    decreases |log|
  {
    if log == [] then []
    else Requests(log[..|log| - 1]) + if Last(log).request.Some? then [Last(log).request.value] else []
  }

  /** A message the router is done with: a command has met its guard, and has been sent on exactly
      if it passed and is not for the auth service. */
  predicate Settled(e: Entry) {
    match e.message
    case Disconnect(_) => e.passed.None? && e.request.None?
    case RouteCommand(id, c) =>
      && e.passed.Some? && (e.request.Some? <==> e.passed.value && !IsAuthCommand(c))
      && (e.request.Some? ==> e.request.value.session == id && e.request.value.command == c)
  }

  /** The last entry says how far the router has got with the message in its hands. */
  predicate InHand(r: Router, e: Entry) {
    match r
    case Idle => Settled(e)
    case Dropping(_) => Settled(e)
    case Resolving(id, c) => e == Entry(RouteCommand(id, c), None, None)
    case Guarding(id, c, _) => e == Entry(RouteCommand(id, c), None, None)
    case Forwarding(id, c, _) => e == Entry(RouteCommand(id, c), Some(true), None) && !IsAuthCommand(c)
    case AwaitingAuth(id, c) => e == Entry(RouteCommand(id, c), Some(true), None) && IsAuthCommand(c)
    case AwaitingWorld(id, c) => e.message == RouteCommand(id, c) && Settled(e)
  }

  /** What was enqueued was either dequeued or is still in the queue, in order; what was sent is what
      the entries say, in order. */
  ghost predicate HistoryHolds(enqueued: seq<Message>, queue: seq<Message>, log: seq<Entry>, forwarded: seq<Forwarded>) {
    enqueued == Messages(log) + queue && forwarded == Requests(log)
  }

  ghost predicate EntriesHold(router: Router, log: seq<Entry>) {
    && (forall i :: 0 <= i < |log| - 1 ==> Settled(log[i]))
    && (if log == [] then router.Idle? else InHand(router, Last(log)))
  }

  ghost predicate TraceHolds(t: Trace) {
    HistoryHolds(t.enqueued, t.state.queue, t.log, t.state.forwarded) && EntriesHold(t.state.router, t.log)
  }

  // ------------------------------------------------------------- every step keeps it

  lemma OneMoreEntry(log: seq<Entry>, e: Entry)
    ensures Messages(log + [e]) == Messages(log) + [e.message]
    ensures Requests(log + [e]) == Requests(log) + if e.request.Some? then [e.request.value] else []
  {
    assert (log + [e])[..|log|] == log;
  }

  lemma EntryChanged(log: seq<Entry>, e: Entry)
    requires log != [] && e.message == Last(log).message && Last(log).request.None?
    ensures Messages(WithLast(log, e)) == Messages(log)
    ensures Requests(WithLast(log, e)) == Requests(log) + if e.request.Some? then [e.request.value] else []
  {
    var before := log[..|log| - 1];
    assert WithLast(log, e)[..|log| - 1] == before;
    assert Requests(before) + [] == Requests(before);
  }

  lemma DequeueKeepsHistory(enqueued: seq<Message>, queue: seq<Message>, log: seq<Entry>, forwarded: seq<Forwarded>)
    requires HistoryHolds(enqueued, queue, log, forwarded) && queue != []
    ensures HistoryHolds(enqueued, queue[1..], log + [Entry(queue[0], None, None)], forwarded)
  {
    OneMoreEntry(log, Entry(queue[0], None, None));
    assert queue == [queue[0]] + queue[1..];
    Associative(Messages(log), [queue[0]], queue[1..]);
    assert Requests(log) + [] == Requests(log);
  }

  lemma EnqueueKeepsHistory(enqueued: seq<Message>, queue: seq<Message>, log: seq<Entry>, forwarded: seq<Forwarded>, m: Message)
    requires HistoryHolds(enqueued, queue, log, forwarded)
    ensures HistoryHolds(enqueued + [m], queue + [m], log, forwarded)
  {
    Associative(Messages(log), queue, [m]);
  }

  lemma ChangeKeepsHistory(enqueued: seq<Message>, queue: seq<Message>, log: seq<Entry>, forwarded: seq<Forwarded>, e: Entry)
    requires HistoryHolds(enqueued, queue, log, forwarded)
    requires log != [] && e.message == Last(log).message && Last(log).request.None?
    ensures HistoryHolds(enqueued, queue, WithLast(log, e), forwarded + if e.request.Some? then [e.request.value] else [])
  {
    EntryChanged(log, e);
  }

  /** What the steps that touch the history do to the queue, the requests and the router. */
  lemma GuardDoes(s: State)
    requires Enabled(s, Guard)
    ensures var t, id, c := Apply(s, Guard), s.router.who, s.router.what;
            && t.queue == s.queue && t.forwarded == s.forwarded
            && t.router == if !PassesGuard(s, id, c) then Idle
                           else if IsAuthCommand(c) then AwaitingAuth(id, c)
                           else Forwarding(id, c, s.router.on)
  {
  }

  lemma ForwardDoes(s: State)
    requires Enabled(s, Forward)
    ensures var t := Apply(s, Forward);
            && t.queue == s.queue && t.forwarded == s.forwarded + [RequestNow(s)]
            && t.router == AwaitingWorld(s.router.who, s.router.what)
  {
  }

  lemma DequeueDoes(s: State)
    requires Enabled(s, Dequeue)
    ensures var t := Apply(s, Dequeue);
            && t.queue == s.queue[1..] && t.forwarded == s.forwarded
            && t.router == match s.queue[0]
                           case Disconnect(id) => Dropping(id)
                           case RouteCommand(id, c) => Resolving(id, c)
  {
  }

  lemma EnqueueDoes(s: State, step: Step)
    requires Enabled(s, step) && (step.Enqueue? || step.Hangup?)
    ensures var t := Apply(s, step);
            && t.queue == s.queue + [if step.Enqueue? then RouteCommand(step.session, step.command) else Disconnect(step.session)]
            && t.forwarded == s.forwarded && t.router == s.router
  {
  }

  lemma ConnectionDoes(s: State, step: Step)
    requires Enabled(s, step) && (step.Connect? || step.ReadError? || step.RemoveOwnRecord?)
    ensures var t := Apply(s, step); t.queue == s.queue && t.forwarded == s.forwarded && t.router == s.router
  {
  }

  /** The router's other steps go on with the same command, or let go of a message they are done with. */
  lemma WorldReplyDoes(s: State, ok: bool, e: Entry)
    requires Enabled(s, WorldReply(ok)) && InHand(s.router, e)
    ensures var t := Apply(s, WorldReply(ok)); t.queue == s.queue && t.forwarded == s.forwarded && InHand(t.router, e)
  {
    WorldReplyTouches(s, ok);
  }

  lemma RouterDoes(s: State, step: Step, e: Entry)
    requires Enabled(s, step) && InHand(s.router, e)
    requires step.Resolve? || step.AuthReplied? || step.DropRecord?
    ensures var t := Apply(s, step); t.queue == s.queue && t.forwarded == s.forwarded && InHand(t.router, e)
  {
  }

  lemma StepKeepsTrace(t: Trace, step: Step)
    requires TraceHolds(t) && Enabled(t.state, step)
    ensures TraceHolds(Extended(t, step))
  {
    var s, log := t.state, t.log;
    match step
    case Dequeue =>
      DequeueDoes(s);
      DequeueKeepsHistory(t.enqueued, s.queue, log, s.forwarded);
    case Guard =>
      GuardDoes(s);
      ChangeKeepsHistory(t.enqueued, s.queue, log, s.forwarded, Last(NewLog(s, log, step)));
      assert s.forwarded + [] == s.forwarded;
    case Forward =>
      ForwardDoes(s);
      ChangeKeepsHistory(t.enqueued, s.queue, log, s.forwarded, Last(NewLog(s, log, step)));
    case Enqueue(id, c) =>
      EnqueueDoes(s, step);
      EnqueueKeepsHistory(t.enqueued, s.queue, log, s.forwarded, RouteCommand(id, c));
    case Hangup(id) =>
      EnqueueDoes(s, step);
      EnqueueKeepsHistory(t.enqueued, s.queue, log, s.forwarded, Disconnect(id));
    case Connect(_) => ConnectionDoes(s, step);
    case ReadError(_) => ConnectionDoes(s, step);
    case RemoveOwnRecord(_) => ConnectionDoes(s, step);
    case WorldReply(ok) => WorldReplyDoes(s, ok, Last(log));
    case _ => RouterDoes(s, step, Last(log));
  }

  lemma {:induction false} TraceKeeps(traces: seq<Trace>, states: seq<State>, steps: seq<Step>, j: nat)
    requires IsTrace(traces, states, steps) && j < |traces|
    ensures TraceHolds(traces[j]) && traces[j].state == states[j]
    decreases j
  {
    if j > 0 {
      TraceKeeps(traces, states, steps, j - 1);
      assert TraceAt(traces, states, steps, j - 1);
      StepKeepsTrace(traces[j - 1], steps[j - 1]);
    }
  }

  // ---------------------------------------------------------------- over whole runs

  /** In every run the router takes the messages off in the order they were enqueued, and sends its
      requests in the order of the commands they are for, at most one for each. */
  lemma RequestsFollowCommands(traces: seq<Trace>, states: seq<State>, steps: seq<Step>, j: nat)
    requires IsTrace(traces, states, steps) && j < |traces|
    ensures traces[j].enqueued == Messages(traces[j].log) + states[j].queue
    ensures states[j].forwarded == Requests(traces[j].log)
  {
    TraceKeeps(traces, states, steps, j);
  }

  /** The router is done with the n-th message it dequeued. */
  predicate IsDone(t: Trace, n: nat) {
    n < |t.log| && (n < |t.log| - 1 || t.state.router.Idle?)
  }

  /** What a Guard step says of the command in the router's hands. */
  predicate IsVerdict(s: State, e: Entry) {
    && s.router.Guarding? && e.message == RouteCommand(s.router.who, s.router.what)
    && e.passed == Some(PassesGuard(s, s.router.who, s.router.what))
  }

  /** A verdict is given by a Guard step or was there before. */
  lemma VerdictComes(s: State, log: seq<Entry>, step: Step, n: nat)
    requires Enabled(s, step) && EntriesHold(s.router, log)
    requires n < |NewLog(s, log, step)| && NewLog(s, log, step)[n].passed.Some?
    ensures var e := NewLog(s, log, step)[n];
            || (step.Guard? && IsVerdict(s, e))
            || (n < |log| && log[n].passed == e.passed && log[n].message == e.message)
  {
  }

  lemma {:induction false} GuardOf(traces: seq<Trace>, states: seq<State>, steps: seq<Step>, j: nat, n: nat) returns (k: nat)
    requires IsTrace(traces, states, steps) && j < |traces| && n < |traces[j].log| && traces[j].log[n].passed.Some?
    ensures k < j && steps[k].Guard? && IsVerdict(states[k], traces[j].log[n])
    decreases j
  {
    TraceKeeps(traces, states, steps, j - 1);
    assert TraceAt(traces, states, steps, j - 1);
    VerdictComes(states[j - 1], traces[j - 1].log, steps[j - 1], n);
    if steps[j - 1].Guard? && IsVerdict(states[j - 1], traces[j].log[n]) {
      k := j - 1;
    } else {
      k := GuardOf(traces, states, steps, j - 1, n);
    }
  }

  /** Every command the router is done with met its guard at a Guard step, and was sent to the world
      service if and only if it passed there and is not for the auth service; the request is for that
      session and that command. */
  lemma SentIffGuardHolds(traces: seq<Trace>, states: seq<State>, steps: seq<Step>, j: nat, n: nat) returns (k: nat)
    requires IsTrace(traces, states, steps) && j < |traces| && IsDone(traces[j], n)
    requires traces[j].log[n].message.RouteCommand?
    ensures var e := traces[j].log[n];
            && k < j && steps[k].Guard? && IsVerdict(states[k], e)
            && (e.request.Some? <==> PassesGuard(states[k], e.message.session, e.message.command) && !IsAuthCommand(e.message.command))
            && (e.request.Some? ==>
                  e.request.value.session == e.message.session && e.request.value.command == e.message.command)
  {
    TraceKeeps(traces, states, steps, j);
    assert Settled(traces[j].log[n]);
    k := GuardOf(traces, states, steps, j, n);
  }

  /** In particular a gameplay command is sent exactly if, when its guard was asked, the world service
      had accepted its session's EnterWorld and the session's record was still there. */
  lemma GameplaySentIffInWorld(traces: seq<Trace>, states: seq<State>, steps: seq<Step>, j: nat, n: nat) returns (k: nat)
    requires IsTrace(traces, states, steps) && j < |traces| && IsDone(traces[j], n)
    requires traces[j].log[n].message.RouteCommand? && IsGameplay(traces[j].log[n].message.command)
    ensures var e := traces[j].log[n]; var id := e.message.session;
            && k < j && steps[k].Guard? && IsVerdict(states[k], e)
            && (e.request.Some? <==> id in states[k].records && EntryAccepted(states, steps, k, id))
  {
    k := SentIffGuardHolds(traces, states, steps, j, n);
    var id := traces[j].log[n].message.session;
    RunKeepsInv(states, steps, k);
    if id in states[k].records {
      InWorldIffAccepted(states, steps, k, id);
    }
  }

  /** The other commands: an EnterWorld is sent exactly if its session then had an account and a
      character, a Heartbeat or Logout always, a login or character command never. */
  lemma OthersSentIff(traces: seq<Trace>, states: seq<State>, steps: seq<Step>, j: nat, n: nat) returns (k: nat)
    requires IsTrace(traces, states, steps) && j < |traces| && IsDone(traces[j], n)
    requires traces[j].log[n].message.RouteCommand?
    ensures var e := traces[j].log[n]; var id, c := e.message.session, e.message.command;
            && k < j && steps[k].Guard? && IsVerdict(states[k], e)
            && (c.EnterWorld? ==>
                  (e.request.Some? <==>
                    id in states[k].records && states[k].records[id].account.Some? && states[k].records[id].character.Some?))
            && (c.Heartbeat? || c.Logout? ==> e.request.Some?)
            && (c.Login? || c.CharacterList? || c.CharacterCreate? || c.CharacterDelete? || c.CharacterSelect? ==>
                  e.request.None?)
  {
    k := SentIffGuardHolds(traces, states, steps, j, n);
    GuardAsks(states[k], traces[j].log[n].message.session, traces[j].log[n].message.command);
  }

  // ------------------------------------------------------- what a connection enqueues

  /** What a connection has enqueued led it to its phase, and nothing of it follows its disconnect. */
  ghost predicate EnqueuedHolds(t: Trace, id: Uuid) {
    && (id in t.state.phases <==> id in t.state.loops)
    && (id !in t.state.loops ==> QueuedFor(t.enqueued, id) == [] && Disconnect(id) !in t.enqueued)
    && (id in t.state.loops ==> Run(PreAuth, QueuedFor(t.enqueued, id)) == Some(t.state.phases[id]))
    && (id in t.state.loops && t.state.loops[id] == Running ==> Disconnect(id) !in t.enqueued)
    && (forall a, b :: 0 <= a < b < |t.enqueued| && t.enqueued[a] == Disconnect(id) ==> !IsOf(t.enqueued[b], id))
  }

  predicate IsOf(m: Message, id: Uuid) {
    m == Disconnect(id) || (m.RouteCommand? && m.session == id)
  }

  lemma MessageKeepsEnqueued(t: Trace, m: Message, id: Uuid)
    requires EnqueuedHolds(t, id) && (IsOf(m, id) ==> Disconnect(id) !in t.enqueued)
    ensures var more := t.enqueued + [m];
            && QueuedFor(more, id) == QueuedFor(t.enqueued, id) + (if m.RouteCommand? && m.session == id then [m.command] else [])
            && (Disconnect(id) in more <==> Disconnect(id) in t.enqueued || m == Disconnect(id))
            && (forall a, b :: 0 <= a < b < |more| && more[a] == Disconnect(id) ==> !IsOf(more[b], id))
  {
    QueuedForSnoc(t.enqueued, m, id);
  }

  lemma EnqueueKeepsEnqueued(t: Trace, step: Step, id: Uuid)
    requires Enabled(t.state, step) && EnqueuedHolds(t, id) && (step.Enqueue? || step.Hangup?)
    ensures EnqueuedHolds(Extended(t, step), id)
  {
    var m := if step.Enqueue? then RouteCommand(step.session, step.command) else Disconnect(step.session);
    MessageKeepsEnqueued(t, m, id);
    var own := QueuedFor(t.enqueued, id);
    if step.Enqueue? && step.session == id {
      RunSnoc(PreAuth, own, step.command);
    } else {
      assert own + [] == own;
    }
  }

  lemma OthersKeepConnections(s: State, step: Step)
    requires Enabled(s, step) && !step.Enqueue? && !step.Hangup? && !step.Connect?
    ensures Apply(s, step).phases == s.phases && Apply(s, step).loops.Keys == s.loops.Keys
    ensures forall id :: id in s.loops && Apply(s, step).loops[id] == Running ==> s.loops[id] == Running
  {
    if step.WorldReply? {
      WorldReplyTouches(s, step.ok);
    }
  }

  lemma StepKeepsEnqueued(t: Trace, step: Step, id: Uuid)
    requires Enabled(t.state, step) && EnqueuedHolds(t, id)
    ensures EnqueuedHolds(Extended(t, step), id)
  {
    if step.Enqueue? || step.Hangup? {
      EnqueueKeepsEnqueued(t, step, id);
    } else if !step.Connect? {
      OthersKeepConnections(t.state, step);
    }
  }

  lemma {:induction false} EnqueuedKeeps(traces: seq<Trace>, states: seq<State>, steps: seq<Step>, j: nat, id: Uuid)
    requires IsTrace(traces, states, steps) && j < |traces|
    ensures EnqueuedHolds(traces[j], id) && traces[j].state == states[j]
    decreases j
  {
    if j > 0 {
      EnqueuedKeeps(traces, states, steps, j - 1, id);
      assert TraceAt(traces, states, steps, j - 1);
      StepKeepsEnqueued(traces[j - 1], steps[j - 1], id);
    }
  }

  /** In every run what each connection enqueues spells a session's life, its phase is the one that
      leads to, and after its disconnect it enqueues nothing more. */
  lemma EachConnectionSpellsAScript(traces: seq<Trace>, states: seq<State>, steps: seq<Step>, j: nat, id: Uuid)
    requires IsTrace(traces, states, steps) && j < |traces|
    ensures id in states[j].phases ==> Run(PreAuth, QueuedFor(traces[j].enqueued, id)) == Some(states[j].phases[id])
    ensures InLanguage(Kinds(QueuedFor(traces[j].enqueued, id)))
    ensures forall a, b :: 0 <= a < b < |traces[j].enqueued| && traces[j].enqueued[a] == Disconnect(id) ==>
              traces[j].enqueued[b] != Disconnect(id)
              && !(traces[j].enqueued[b].RouteCommand? && traces[j].enqueued[b].session == id)
  {
    EnqueuedKeeps(traces, states, steps, j, id);
    var script := AcceptedHasScript(QueuedFor(traces[j].enqueued, id));
  }
}
