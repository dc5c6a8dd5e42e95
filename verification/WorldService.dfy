/** The world service as interleaved steps: the manager's calls, the coordinator's inbox, the
    router task of each map, and the map instances behind them. */
module WorldService {
  import opened Wrappers
  import opened Commands
  import opened MapServer
  import opened MapLaws
  import opened MapRuns
  import opened World

  // --------------------------------------------------------------------- state

  /** The way from the coordinator to one map instance: the channel the coordinator sends on, what
      the router task holds between its receive and its send, and the instance's own channel; with
      its history, what the coordinator ever sent and what the instance has processed. */
  datatype Pipe = Pipe(owner: MapId, world: seq<Incoming>, hand: Option<Incoming>, cmds: seq<Incoming>,
                       sent: seq<Incoming>, done: seq<Incoming>)

  /** A running map: the table's entry, and the handle a call takes out of it. */
  datatype Runtime = Runtime(map_: MapId, channel: Channel)

  /** The activate call that holds the manager's lock, between its send and its insert. */
  datatype Lock = Free | Activating(map_: MapId, opened_: Channel)

  datatype State = State(
    inbox: seq<Message>,
    books: Books,
    pipes: map<Channel, Pipe>,
    live: map<Channel, Instance>,
    runtimes: map<MapId, Channel>,
    lock: Lock,
    // runtimes taken out of the table whose map is not yet unregistered, and those to be aborted
    removing: set<Runtime>,
    aborting: set<Channel>,
    next: Channel,
    // history: the messages the coordinator has handled
    handled: seq<Message>)

  const START := State([], EMPTY, map[], map[], map[], Free, {}, {}, 0, [])

  datatype Step =
    | Request(request: Message)
    | ActivateSend(map_: MapId)
    | ActivateInsert
    | DeactivateRemove(removed: MapId)
    | ShutdownTake
    | UnregisterSend(taken: Runtime)
    | Abort(aborted: Channel)
    | Handle
    | RouterTake(from: Channel)
    | RouterSend(via: Channel)
    | MapTick(ticking: Channel, intake: nat, orders: Orders)

  /** Commands sent to an instance that it has yet to process, oldest first. */
  function InFlight(p: Pipe): seq<Incoming> {
    p.cmds + (if p.hand.Some? then [p.hand.value] else []) + p.world
  }

  ghost predicate Enabled(s: State, step: Step) {
    match step
    case Request(msg) => !msg.RegisterMap? && !msg.UnregisterMap?
    case ActivateSend(m) => s.lock.Free? && m !in s.runtimes
    case ActivateInsert => s.lock.Activating?
    case DeactivateRemove(m) => s.lock.Free? && m in s.runtimes
    case ShutdownTake => s.lock.Free?
    case UnregisterSend(r) => r in s.removing
    case Abort(ch) => ch in s.aborting
    case Handle => s.inbox != []
    case RouterTake(ch) => ch in s.pipes && s.pipes[ch].hand.None? && s.pipes[ch].world != []
    case RouterSend(ch) => ch in s.pipes && s.pipes[ch].hand.Some?
    case MapTick(ch, n, o) =>
      && ch in s.live && ch in s.pipes && n <= |s.pipes[ch].cmds|
      && ValidOrders(o, AfterInput(s.live[ch], s.pipes[ch].cmds[..n]).players.Keys)
  }

  function Put(p: Pipe, c: Incoming): Pipe {
    p.(world := p.world + [c], sent := p.sent + [c])
  }

  /** The instance takes the first n commands off its channel. */
  function Take(p: Pipe, n: nat): Pipe
    requires n <= |p.cmds|
  {
    p.(cmds := p.cmds[n..], done := p.done + p.cmds[..n])
  }

  function Deliver(pipes: map<Channel, Pipe>, sent: seq<Delivery>): map<Channel, Pipe>
    requires |sent| <= 1
  {
    if sent == [] || sent[0].to !in pipes then pipes
    else pipes[sent[0].to := Put(pipes[sent[0].to], sent[0].routed)]
  }

  function AfterHandle(s: State): State
    requires s.inbox != []
  {
    s.(inbox := s.inbox[1..],
       books := World.Apply(s.books, s.inbox[0]),
       pipes := Deliver(s.pipes, Sends(s.books, s.inbox[0])),
       handled := s.handled + [s.inbox[0]])
  }

  function AfterTick(s: State, ch: Channel, n: nat, o: Orders): State
    requires ch in s.live && ch in s.pipes && n <= |s.pipes[ch].cmds|
    requires forall i :: 0 <= i < |o.moves| ==> o.moves[i] in AfterInput(s.live[ch], s.pipes[ch].cmds[..n]).players
  {
    s.(live := s.live[ch := Tick(s.live[ch], s.pipes[ch].cmds[..n], o)],
       pipes := s.pipes[ch := Take(s.pipes[ch], n)])
  }

  ghost function Next(s: State, step: Step): State
    requires Enabled(s, step)
  {
    match step
    case Request(msg) => s.(inbox := s.inbox + [msg])
    case ActivateSend(m) =>
      s.(inbox := s.inbox + [RegisterMap(m, s.next)], lock := Activating(m, s.next), next := s.next + 1,
         pipes := s.pipes[s.next := Pipe(m, [], None, [], [], [])], live := s.live[s.next := NewInstance(m)])
    case ActivateInsert => s.(runtimes := s.runtimes[s.lock.map_ := s.lock.opened_], lock := Free)
    case DeactivateRemove(m) => s.(runtimes := s.runtimes - {m}, removing := s.removing + {Runtime(m, s.runtimes[m])})
    case ShutdownTake => s.(runtimes := map[], removing := s.removing + (set m | m in s.runtimes :: Runtime(m, s.runtimes[m])))
    case UnregisterSend(r) =>
      s.(inbox := s.inbox + [UnregisterMap(r.map_)], removing := s.removing - {r}, aborting := s.aborting + {r.channel})
    case Abort(ch) => s.(live := s.live - {ch}, aborting := s.aborting - {ch})
    case Handle => AfterHandle(s)
    case RouterTake(ch) =>
      var p := s.pipes[ch];
      s.(pipes := s.pipes[ch := p.(hand := Some(p.world[0]), world := p.world[1..])])
    case RouterSend(ch) =>
      var p := s.pipes[ch];
      s.(pipes := s.pipes[ch := p.(hand := None, cmds := p.cmds + [p.hand.value])])
    case MapTick(ch, n, o) => AfterTick(s, ch, n, o)
  }

  // ------------------------------------------------- manager and coordinator agree

  function Senders(senders: map<MapId, Channel>, msg: Message): map<MapId, Channel> {
    match msg
    case RegisterMap(m, tx) => senders[m := tx]
    case UnregisterMap(m) => senders - {m}
    case _ => senders
  }

  /** The registered maps once the messages in the inbox are handled. */
  function Plan(senders: map<MapId, Channel>, inbox: seq<Message>): map<MapId, Channel>
    decreases |inbox|
  {
    if inbox == [] then senders else Plan(Senders(senders, inbox[0]), inbox[1..])
  }

  lemma {:induction false} PlanSnoc(senders: map<MapId, Channel>, inbox: seq<Message>, msg: Message)
    ensures Plan(senders, inbox + [msg]) == Senders(Plan(senders, inbox), msg)
    decreases |inbox|
  {
    if inbox == [] {
      assert (inbox + [msg])[1..] == [];
    } else {
      assert (inbox + [msg])[1..] == inbox[1..] + [msg];
      PlanSnoc(Senders(senders, inbox[0]), inbox[1..], msg);
    }
  }

  /** Every registration in the inbox will find its map unregistered. */
  predicate Alternates(senders: map<MapId, Channel>, inbox: seq<Message>)
    decreases |inbox|
  {
    inbox == [] || (
      && (inbox[0].RegisterMap? ==> inbox[0].registered !in senders)
      && Alternates(Senders(senders, inbox[0]), inbox[1..]))
  }

  lemma {:induction false} AlternatesSnoc(senders: map<MapId, Channel>, inbox: seq<Message>, msg: Message)
    ensures Alternates(senders, inbox + [msg])
       <==> Alternates(senders, inbox) && (msg.RegisterMap? ==> msg.registered !in Plan(senders, inbox))
    decreases |inbox|
  {
    if inbox == [] {
      assert (inbox + [msg])[1..] == [];
    } else {
      assert (inbox + [msg])[1..] == inbox[1..] + [msg];
      AlternatesSnoc(Senders(senders, inbox[0]), inbox[1..], msg);
    }
  }

  ghost predicate MidStep(s: State, m: MapId) {
    || (s.lock.Activating? && s.lock.map_ == m)
    || exists r :: r in s.removing && r.map_ == m
  }

  /** Replaying the inbox onto the registered maps gives the manager's table, apart from maps with
      a control call in mid-step. */
  ghost predicate ManagerAgrees(s: State) {
    forall m :: !MidStep(s, m) ==> SameEntry(Plan(s.books.senders, s.inbox), s.runtimes, m)
  }

  predicate SameEntry(a: map<MapId, Channel>, b: map<MapId, Channel>, m: MapId) {
    (m in a <==> m in b) && (m in a && m in b ==> a[m] == b[m])
  }

  /** What ManagerAgrees rests on: every runtime, in the table or in the hands of a call, is where
      the inbox leads, and nothing else is. */
  ghost predicate PlanHolds(s: State) {
    var plan := Plan(s.books.senders, s.inbox);
    && (forall m :: m in s.runtimes ==>
          m in plan && plan[m] == s.runtimes[m] && Runtime(m, s.runtimes[m]) !in s.removing)
    && (s.lock.Activating? ==> s.lock.map_ in plan && plan[s.lock.map_] == s.lock.opened_)
    && (s.lock.Activating? ==> s.lock.map_ !in s.runtimes && Runtime(s.lock.map_, s.lock.opened_) !in s.removing)
    && (forall r :: r in s.removing ==> r.map_ in plan && plan[r.map_] == r.channel)
    && (forall m :: m in plan ==>
          m in s.runtimes || s.lock == Activating(m, plan[m]) || Runtime(m, plan[m]) in s.removing)
    && Alternates(s.books.senders, s.inbox)
  }

  lemma PlanMeansAgreement(s: State)
    requires PlanHolds(s)
    ensures ManagerAgrees(s)
  {
  }

  /** No activation of a map falls between the removal of its runtime and its UnregisterMap. */
  ghost predicate ActivatesSettledMaps(s: State, step: Step) {
    step.ActivateSend? ==> forall r :: r in s.removing ==> r.map_ != step.map_
  }

  /** Exactly when sending an UnregisterMap keeps the agreement: its map is not back in the table,
      or another call on it is still under way. */
  lemma UnregisterSendAgrees(s: State, r: Runtime)
    requires ManagerAgrees(s) && Enabled(s, UnregisterSend(r))
    ensures var t := Next(s, UnregisterSend(r));
            ManagerAgrees(t) <==> MidStep(t, r.map_) || r.map_ !in s.runtimes
  {
    var t, m := Next(s, UnregisterSend(r)), r.map_;
    PlanSnoc(s.books.senders, s.inbox, UnregisterMap(m));
    forall n | n != m && !MidStep(t, n)
      ensures SameEntry(Plan(t.books.senders, t.inbox), t.runtimes, n)
    {
      assert forall q :: q in s.removing && q != r ==> q in t.removing;
      assert !MidStep(s, n);
    }
    if !MidStep(t, m) && m in s.runtimes {
      assert !SameEntry(Plan(t.books.senders, t.inbox), t.runtimes, m);
    }
  }

  lemma SendKeepsPlan(s: State, step: Step)
    requires PlanHolds(s) && Enabled(s, step) && ActivatesSettledMaps(s, step)
    requires step.Request? || step.ActivateSend? || step.UnregisterSend?
    ensures PlanHolds(Next(s, step))
  {
    var msg := match step
               case Request(msg) => msg
               case ActivateSend(m) => RegisterMap(m, s.next)
               case UnregisterSend(r) => UnregisterMap(r.map_);
    PlanSnoc(s.books.senders, s.inbox, msg);
    AlternatesSnoc(s.books.senders, s.inbox, msg);
  }

  /** Moving runtimes between the table and the hands of calls. */
  lemma TableStepKeepsPlan(s: State, step: Step)
    requires PlanHolds(s) && Enabled(s, step)
    requires step.ActivateInsert? || step.DeactivateRemove? || step.ShutdownTake?
    ensures PlanHolds(Next(s, step))
  {
  }

  lemma ControlStepKeepsPlan(s: State, step: Step)
    requires PlanHolds(s) && Enabled(s, step) && ActivatesSettledMaps(s, step)
    ensures PlanHolds(Next(s, step))
  {
    if step.Request? || step.ActivateSend? || step.UnregisterSend? {
      SendKeepsPlan(s, step);
    } else if step.ActivateInsert? || step.DeactivateRemove? || step.ShutdownTake? {
      TableStepKeepsPlan(s, step);
    }
  }

  // ----------------------------------------------- coordinator and instances agree

  /** Who will be online in a live instance once it has processed all that is in flight to it. */
  function Roster(s: State, ch: Channel): set<Uuid>
    requires ch in s.live && ch in s.pipes
  {
    KeysAfter(s.live[ch].players.Keys, InFlight(s.pipes[ch]))
  }

  /** The live instance of each registered map will hold exactly the sessions tracked on it. */
  ghost predicate SessionsAgree(s: State) {
    && (forall id :: id in s.books.sessions ==> s.books.sessions[id] in s.books.senders)
    && (forall m :: m in s.books.senders && s.books.senders[m] in s.live && s.books.senders[m] in s.pipes ==>
          Roster(s, s.books.senders[m]) == On(s.books.sessions, m))
  }

  ghost predicate InstancesHold(s: State) {
    && (forall ch :: ch in s.live ==> ch in s.pipes && Stays(s.live[ch]) && OnlyNpcTexts(s.live[ch]))
    && (forall ch :: ch in s.pipes ==> ch < s.next)
    && (forall m :: m in s.books.senders ==> s.books.senders[m] in s.pipes && s.pipes[s.books.senders[m]].owner == m)
  }

  /** A channel on which nothing was ever sent. */
  ghost predicate Unused(s: State, ch: Channel) {
    ch in s.pipes && InFlight(s.pipes[ch]) == [] && (ch in s.live ==> s.live[ch].players.Keys == {})
  }

  /** Each registration still to be handled brings its map a channel of its own, unused so far. */
  ghost predicate RegistrationsHold(s: State) {
    && (forall i :: 0 <= i < |s.inbox| && s.inbox[i].RegisterMap? ==> FreshRegistration(s, s.inbox[i]))
    && (forall i, j :: 0 <= i < j < |s.inbox| && s.inbox[i].RegisterMap? && s.inbox[j].RegisterMap? ==>
          s.inbox[i].tx != s.inbox[j].tx)
  }

  ghost predicate FreshRegistration(s: State, msg: Message)
    requires msg.RegisterMap?
  {
    && Unused(s, msg.tx) && s.pipes[msg.tx].owner == msg.registered
    && (msg.registered in s.books.senders ==> s.books.senders[msg.registered] != msg.tx)
  }

  lemma RosterAfterSend(keys: set<Uuid>, p: Pipe, c: Incoming)
    ensures KeysAfter(keys, InFlight(Put(p, c))) == KeysAfterOne(KeysAfter(keys, InFlight(p)), c)
  {
    assert InFlight(Put(p, c)) == InFlight(p) + [c];
    KeysAfterAppend(keys, InFlight(p), [c]);
  }

  /** The map a message names for a session the books place elsewhere has no live instance there. */
  predicate Elsewhere(s: State, id: Uuid, m: MapId) {
    && id in s.books.sessions && s.books.sessions[id] != m
    && s.books.sessions[id] in s.books.senders && s.books.senders[s.books.sessions[id]] in s.live
  }

  /** What a routed message must satisfy to keep books and instances in agreement. */
  predicate RouteFits(s: State, msg: Message)
    requires msg.RouteToMap?
  {
    && (msg.command.EnterWorld? ==> msg.map_ in s.books.senders && !Elsewhere(s, msg.session, msg.map_))
    && (msg.command.Logout? ==> !Elsewhere(s, msg.session, msg.map_))
  }

  lemma RosterAfterRoute(s: State, msg: Message, m: MapId)
    requires InstancesHold(s) && s.inbox != [] && s.inbox[0] == msg && msg.RouteToMap?
    requires m in s.books.senders && s.books.senders[m] in s.live
    ensures var t := AfterHandle(s);
            && s.books.senders[m] in t.pipes
            && Roster(t, s.books.senders[m])
               == if m == msg.map_ then KeysAfterOne(Roster(s, s.books.senders[m]), Incoming(msg.session, msg.character, msg.command))
                  else Roster(s, s.books.senders[m])
  {
    var ch := s.books.senders[m];
    if m == msg.map_ {
      RosterAfterSend(s.live[ch].players.Keys, s.pipes[ch], Incoming(msg.session, msg.character, msg.command));
    } else if msg.map_ in s.books.senders {
      assert s.books.senders[msg.map_] != ch;
    }
  }

  /** Whose roster a routed message takes out of step with the books. */
  predicate LeavesBehind(b: Books, msg: Message, m: MapId)
    requires msg.RouteToMap?
  {
    && (msg.command.EnterWorld? || msg.command.Logout?)
    && m != msg.map_ && msg.session in b.sessions && b.sessions[msg.session] == m
  }

  lemma OnAfterRoute(b: Books, msg: Message, m: MapId)
    requires msg.RouteToMap?
    ensures var now, then_ := On(b.sessions, m), On(World.Apply(b, msg).sessions, m);
            && (m == msg.map_ ==> then_ == KeysAfterOne(now, Incoming(msg.session, msg.character, msg.command)))
            && (m != msg.map_ ==> (then_ == now <==> !LeavesBehind(b, msg, m)))
  {
    var now, then_ := On(b.sessions, m), On(World.Apply(b, msg).sessions, m);
    assert msg.session in now <==> msg.session in b.sessions && b.sessions[msg.session] == m;
    if LeavesBehind(b, msg, m) {
      assert msg.session in now && msg.session !in then_;
    }
  }

  lemma RosterMatchesAfterRoute(s: State, m: MapId)
    requires SessionsAgree(s) && InstancesHold(s) && s.inbox != [] && s.inbox[0].RouteToMap?
    requires m in s.books.senders && s.books.senders[m] in s.live
    ensures s.books.senders[m] in AfterHandle(s).pipes
    ensures Roster(AfterHandle(s), s.books.senders[m]) == On(AfterHandle(s).books.sessions, m)
       <==> !LeavesBehind(s.books, s.inbox[0], m)
  {
    RosterAfterRoute(s, s.inbox[0], m);
    OnAfterRoute(s.books, s.inbox[0], m);
  }

  /** Handling a routed message keeps the agreement exactly when it fits. */
  lemma RouteAgrees(s: State)
    requires SessionsAgree(s) && InstancesHold(s) && s.inbox != [] && s.inbox[0].RouteToMap?
    ensures SessionsAgree(AfterHandle(s)) <==> RouteFits(s, s.inbox[0])
  {
    var msg, t := s.inbox[0], AfterHandle(s);
    if RouteFits(s, msg) {
      forall m | m in s.books.senders && s.books.senders[m] in s.live && s.books.senders[m] in t.pipes
        ensures Roster(t, s.books.senders[m]) == On(t.books.sessions, m)
      {
        RosterMatchesAfterRoute(s, m);
      }
    } else if msg.command.EnterWorld? && msg.map_ !in s.books.senders {
      assert t.books.sessions[msg.session] !in t.books.senders;
    } else {
      RosterMatchesAfterRoute(s, s.books.sessions[msg.session]);
    }
  }

  ghost predicate Holds(s: State) {
    PlanHolds(s) && SessionsAgree(s) && InstancesHold(s) && RegistrationsHold(s)
  }

  lemma HandleRouteKeeps(s: State)
    requires InstancesHold(s) && RegistrationsHold(s) && s.inbox != [] && s.inbox[0].RouteToMap?
    ensures InstancesHold(AfterHandle(s)) && RegistrationsHold(AfterHandle(s))
  {
    var t := AfterHandle(s);
    forall i | 0 <= i < |t.inbox| && t.inbox[i].RegisterMap?
      ensures FreshRegistration(t, t.inbox[i])
    {
      assert t.inbox[i] == s.inbox[i + 1] && FreshRegistration(s, s.inbox[i + 1]);
    }
  }

  lemma HandleRegisterKeeps(s: State)
    requires Holds(s) && s.inbox != [] && s.inbox[0].RegisterMap?
    ensures SessionsAgree(AfterHandle(s)) && InstancesHold(AfterHandle(s)) && RegistrationsHold(AfterHandle(s))
  {
    var t, msg := AfterHandle(s), s.inbox[0];
    assert FreshRegistration(s, msg);
    assert On(s.books.sessions, msg.registered) == {};
    forall i | 0 <= i < |t.inbox| && t.inbox[i].RegisterMap?
      ensures FreshRegistration(t, t.inbox[i])
    {
      assert t.inbox[i] == s.inbox[i + 1] && FreshRegistration(s, s.inbox[i + 1]);
    }
  }

  lemma HandleUnregisterKeeps(s: State)
    requires Holds(s) && s.inbox != [] && s.inbox[0].UnregisterMap?
    ensures SessionsAgree(AfterHandle(s)) && InstancesHold(AfterHandle(s)) && RegistrationsHold(AfterHandle(s))
  {
    var t := AfterHandle(s);
    forall m | m in t.books.senders && t.books.senders[m] in t.live
      ensures Roster(t, t.books.senders[m]) == On(t.books.sessions, m)
    {
      assert On(t.books.sessions, m) == On(s.books.sessions, m);
    }
    forall i | 0 <= i < |t.inbox| && t.inbox[i].RegisterMap?
      ensures FreshRegistration(t, t.inbox[i])
    {
      assert t.inbox[i] == s.inbox[i + 1] && FreshRegistration(s, s.inbox[i + 1]);
    }
  }

  lemma HandleKeeps(s: State)
    requires Holds(s) && s.inbox != [] && (s.inbox[0].RouteToMap? ==> RouteFits(s, s.inbox[0]))
    ensures Holds(AfterHandle(s))
  {
    ControlStepKeepsPlan(s, Handle);
    match s.inbox[0]
    case RegisterMap(_, _) => HandleRegisterKeeps(s);
    case UnregisterMap(_) => HandleUnregisterKeeps(s);
    case RouteToMap(_, _, _, _) =>
      RouteAgrees(s);
      HandleRouteKeeps(s);
    case Broadcast(_) => HandleOtherKeeps(s);
    case GetStats => HandleOtherKeeps(s);
  }

  lemma HandleOtherKeeps(s: State)
    requires Holds(s) && s.inbox != [] && (s.inbox[0].Broadcast? || s.inbox[0].GetStats?)
    ensures SessionsAgree(AfterHandle(s)) && InstancesHold(AfterHandle(s)) && RegistrationsHold(AfterHandle(s))
  {
    var t := AfterHandle(s);
    forall i | 0 <= i < |t.inbox| && t.inbox[i].RegisterMap?
      ensures FreshRegistration(t, t.inbox[i])
    {
      assert t.inbox[i] == s.inbox[i + 1] && FreshRegistration(s, s.inbox[i + 1]);
    }
  }

  /** Nothing happens to any roster: what is in flight, who is online and what is registered stay. */
  ghost predicate SameTraffic(s: State, t: State) {
    && t.books == s.books && t.inbox == s.inbox && t.next == s.next
    && t.pipes.Keys == s.pipes.Keys && t.live.Keys <= s.live.Keys
    && (forall ch :: ch in s.pipes ==> t.pipes[ch].owner == s.pipes[ch].owner)
    && (forall ch :: ch in s.pipes && ch !in t.live ==> InFlight(t.pipes[ch]) == InFlight(s.pipes[ch]))
    && (forall ch :: ch in t.live ==> ch in s.pipes && SameInstance(s, t, ch))
  }

  ghost predicate SameInstance(s: State, t: State, ch: Channel)
    requires ch in s.live && ch in s.pipes && ch in t.live && ch in t.pipes
  {
    && Stays(t.live[ch]) && OnlyNpcTexts(t.live[ch])
    && Roster(t, ch) == Roster(s, ch)
    && (InFlight(s.pipes[ch]) == [] ==> InFlight(t.pipes[ch]) == [])
  }

  lemma SameTrafficKeeps(s: State, t: State)
    requires SessionsAgree(s) && InstancesHold(s) && RegistrationsHold(s) && SameTraffic(s, t)
    ensures SessionsAgree(t) && InstancesHold(t) && RegistrationsHold(t)
  {
    forall m | m in t.books.senders && t.books.senders[m] in t.live && t.books.senders[m] in t.pipes
      ensures Roster(t, t.books.senders[m]) == On(t.books.sessions, m)
    {
      assert SameInstance(s, t, s.books.senders[m]);
    }
    forall i | 0 <= i < |t.inbox| && t.inbox[i].RegisterMap?
      ensures FreshRegistration(t, t.inbox[i])
    {
      assert FreshRegistration(s, s.inbox[i]);
      var ch := s.inbox[i].tx;
      if ch in t.live {
        assert SameInstance(s, t, ch);
      }
    }
  }

  /** A pipe whose commands in flight are the same carries the same traffic. */
  lemma ReplacePipe(s: State, t: State, ch: Channel, q: Pipe)
    requires InstancesHold(s) && ch in s.pipes && t == s.(pipes := s.pipes[ch := q])
    requires q.owner == s.pipes[ch].owner && InFlight(q) == InFlight(s.pipes[ch])
    ensures SameTraffic(s, t)
  {
  }

  lemma RouterKeeps(s: State, step: Step)
    requires InstancesHold(s) && Enabled(s, step) && (step.RouterTake? || step.RouterSend?)
    ensures SameTraffic(s, Next(s, step))
  {
    var ch := if step.RouterTake? then step.from else step.via;
    assert InFlight(Next(s, step).pipes[ch]) == InFlight(s.pipes[ch]);
    ReplacePipe(s, Next(s, step), ch, Next(s, step).pipes[ch]);
  }

  lemma TakeMoves(p: Pipe, n: nat)
    requires n <= |p.cmds|
    ensures InFlight(p) == p.cmds[..n] + InFlight(Take(p, n))
  {
  }

  lemma TickKeepsRoster(inst: Instance, p: Pipe, n: nat, o: Orders)
    requires Stays(inst) && OnlyNpcTexts(inst) && n <= |p.cmds|
    requires ValidOrders(o, AfterInput(inst, p.cmds[..n]).players.Keys)
    ensures var t, q := Tick(inst, p.cmds[..n], o), Take(p, n);
            && Stays(t) && OnlyNpcTexts(t)
            && KeysAfter(t.players.Keys, InFlight(q)) == KeysAfter(inst.players.Keys, InFlight(p))
            && |InFlight(q)| <= |InFlight(p)|
  {
    TickKeys(inst, p.cmds[..n], o);
    TickKeepsStays(inst, p.cmds[..n], o);
    TakeMoves(p, n);
    KeysAfterAppend(inst.players.Keys, p.cmds[..n], InFlight(Take(p, n)));
  }

  lemma ReplaceInstance(s: State, t: State, ch: Channel, inst: Instance, q: Pipe)
    requires InstancesHold(s) && ch in s.live && ch in s.pipes
    requires t == s.(live := s.live[ch := inst], pipes := s.pipes[ch := q])
    requires Stays(inst) && OnlyNpcTexts(inst) && q.owner == s.pipes[ch].owner
    requires KeysAfter(inst.players.Keys, InFlight(q)) == Roster(s, ch) && |InFlight(q)| <= |InFlight(s.pipes[ch])|
    ensures SameTraffic(s, t)
  {
  }

  lemma MapTickKeeps(s: State, ch: Channel, n: nat, o: Orders)
    requires InstancesHold(s) && Enabled(s, MapTick(ch, n, o))
    ensures SameTraffic(s, Next(s, MapTick(ch, n, o)))
  {
    var p := s.pipes[ch];
    TickKeepsRoster(s.live[ch], p, n, o);
    ReplaceInstance(s, AfterTick(s, ch, n, o), ch, Tick(s.live[ch], p.cmds[..n], o), Take(p, n));
  }

  lemma ActivateKeepsSessions(s: State, m: MapId)
    requires SessionsAgree(s) && InstancesHold(s) && Enabled(s, ActivateSend(m))
    ensures var t := Next(s, ActivateSend(m)); SessionsAgree(t) && InstancesHold(t)
  {
    var t := Next(s, ActivateSend(m));
    forall n | n in t.books.senders && t.books.senders[n] in t.live
      ensures Roster(t, t.books.senders[n]) == On(t.books.sessions, n)
    {
      assert s.books.senders[n] < s.next;
    }
  }

  lemma ActivateKeeps(s: State, m: MapId)
    requires SessionsAgree(s) && InstancesHold(s) && RegistrationsHold(s) && Enabled(s, ActivateSend(m))
    ensures var t := Next(s, ActivateSend(m)); SessionsAgree(t) && InstancesHold(t) && RegistrationsHold(t)
  {
    var t := Next(s, ActivateSend(m));
    ActivateKeepsSessions(s, m);
    forall i | 0 <= i < |t.inbox| && t.inbox[i].RegisterMap?
      ensures FreshRegistration(t, t.inbox[i]) && (i < |s.inbox| ==> t.inbox[i].tx < s.next)
    {
      if i < |s.inbox| {
        assert FreshRegistration(s, s.inbox[i]);
      }
    }
  }

  lemma EnqueueKeeps(s: State, msg: Message)
    requires SessionsAgree(s) && InstancesHold(s) && RegistrationsHold(s) && !msg.RegisterMap?
    ensures var t := s.(inbox := s.inbox + [msg]); SessionsAgree(t) && InstancesHold(t) && RegistrationsHold(t)
  {
    var t := s.(inbox := s.inbox + [msg]);
    forall i | 0 <= i < |t.inbox| && t.inbox[i].RegisterMap?
      ensures FreshRegistration(t, t.inbox[i])
    {
      assert FreshRegistration(s, s.inbox[i]);
    }
  }

  /** Activations leave no gap, and each EnterWorld or Logout handled names the one registered map
      its session is on. */
  ghost predicate WellBehaved(s: State, step: Step) {
    && ActivatesSettledMaps(s, step)
    && (step.Handle? && s.inbox != [] && s.inbox[0].RouteToMap? ==> RouteFits(s, s.inbox[0]))
  }

  lemma TrafficStepKeeps(s: State, step: Step)
    requires Holds(s) && Enabled(s, step)
    requires step.RouterTake? || step.RouterSend? || step.MapTick?
    ensures var t := Next(s, step); SessionsAgree(t) && InstancesHold(t) && RegistrationsHold(t)
  {
    if step.MapTick? {
      MapTickKeeps(s, step.ticking, step.intake, step.orders);
    } else {
      RouterKeeps(s, step);
    }
    SameTrafficKeeps(s, Next(s, step));
  }

  lemma UnregisterSendKeeps(s: State, r: Runtime)
    requires SessionsAgree(s) && InstancesHold(s) && RegistrationsHold(s) && Enabled(s, UnregisterSend(r))
    ensures var t := Next(s, UnregisterSend(r)); SessionsAgree(t) && InstancesHold(t) && RegistrationsHold(t)
  {
    EnqueueKeeps(s, UnregisterMap(r.map_));
    var t := Next(s, UnregisterSend(r));
    SameTrafficKeeps(s.(inbox := t.inbox), t);
  }

  lemma FewerInstances(s: State, t: State)
    requires InstancesHold(s) && t.books == s.books && t.inbox == s.inbox && t.next == s.next && t.pipes == s.pipes
    requires t.live.Keys <= s.live.Keys && forall ch :: ch in t.live ==> t.live[ch] == s.live[ch]
    ensures SameTraffic(s, t)
  {
  }

  lemma ManagerStepKeeps(s: State, step: Step)
    requires Holds(s) && Enabled(s, step) && WellBehaved(s, step)
    requires !step.Handle? && !step.RouterTake? && !step.RouterSend? && !step.MapTick?
    ensures var t := Next(s, step); SessionsAgree(t) && InstancesHold(t) && RegistrationsHold(t)
  {
    var t := Next(s, step);
    match step
    case Request(msg) => EnqueueKeeps(s, msg);
    case ActivateSend(m) => ActivateKeeps(s, m);
    case UnregisterSend(r) => UnregisterSendKeeps(s, r);
    case _ =>
      FewerInstances(s, t);
      SameTrafficKeeps(s, t);
  }

  lemma StepKeeps(s: State, step: Step)
    requires Holds(s) && Enabled(s, step) && WellBehaved(s, step)
    ensures Holds(Next(s, step))
  {
    if step.Handle? {
      HandleKeeps(s);
    } else {
      ControlStepKeepsPlan(s, step);
      if step.RouterTake? || step.RouterSend? || step.MapTick? {
        TrafficStepKeeps(s, step);
      } else {
        ManagerStepKeeps(s, step);
      }
    }
  }

  // ------------------------------------------------------------- over whole runs

  ghost predicate IsRun(states: seq<State>, steps: seq<Step>) {
    && |states| == |steps| + 1 && states[0] == START
    && forall i :: 0 <= i < |steps| ==> Enabled(states[i], steps[i]) && states[i + 1] == Next(states[i], steps[i])
  }

  lemma {:induction false} RunHolds(states: seq<State>, steps: seq<Step>, i: nat)
    requires IsRun(states, steps) && i <= |steps|
    requires forall k :: 0 <= k < i ==> WellBehaved(states[k], steps[k])
    ensures Holds(states[i])
    decreases i
  {
    if i > 0 {
      RunHolds(states, steps, i - 1);
      StepKeeps(states[i - 1], steps[i - 1]);
    }
  }

  /** In every interleaving where activations leave no gap, replaying the inbox onto the registered
      maps gives the manager's table, apart from maps with a call in mid-step. */
  lemma ManagerAlwaysAgrees(states: seq<State>, steps: seq<Step>, i: nat)
    requires IsRun(states, steps) && i <= |steps|
    requires forall k :: 0 <= k < i ==> ActivatesSettledMaps(states[k], steps[k])
    ensures ManagerAgrees(states[i])
  {
    RunKeepsPlan(states, steps, i);
    PlanMeansAgreement(states[i]);
  }

  lemma {:induction false} RunKeepsPlan(states: seq<State>, steps: seq<Step>, i: nat)
    requires IsRun(states, steps) && i <= |steps|
    requires forall k :: 0 <= k < i ==> ActivatesSettledMaps(states[k], steps[k])
    ensures PlanHolds(states[i])
    decreases i
  {
    if i > 0 {
      RunKeepsPlan(states, steps, i - 1);
      ControlStepKeepsPlan(states[i - 1], steps[i - 1]);
    }
  }

  /** In every well-behaved run the live instance of each registered map will, once it has processed
      what is in flight to it, hold exactly the sessions the coordinator tracks on the map, however
      often maps were unregistered and registered again. */
  lemma SessionsAlwaysAgree(states: seq<State>, steps: seq<Step>, i: nat, m: MapId)
    requires IsRun(states, steps) && i <= |steps| && m in states[i].books.senders
    requires forall k :: 0 <= k < i ==> WellBehaved(states[k], steps[k])
    ensures var s := states[i]; var ch := s.books.senders[m];
            && ch in s.pipes
            && (ch in s.live ==>
                  KeysAfter(s.live[ch].players.Keys, InFlight(s.pipes[ch]))
                  == set id | id in s.books.sessions && s.books.sessions[id] == m)
  {
    RunHolds(states, steps, i);
    if states[i].books.senders[m] in states[i].live {
      assert Roster(states[i], states[i].books.senders[m]) == On(states[i].books.sessions, m);
    }
  }

  /** What was processed, followed by what is in flight, is what was sent. */
  ghost predicate Conserved(p: Pipe) {
    p.done + InFlight(p) == p.sent
  }

  lemma StepConserves(s: State, step: Step, ch: Channel)
    requires Enabled(s, step) && ch in Next(s, step).pipes
    requires ch in s.pipes ==> Conserved(s.pipes[ch])
    ensures Conserved(Next(s, step).pipes[ch])
  {
    var t := Next(s, step);
    if ch in s.pipes && t.pipes[ch] != s.pipes[ch] {
      var p := s.pipes[ch];
      match step
      case MapTick(_, n, _) =>
        TakeMoves(p, n);
        Associative(p.done, p.cmds[..n], InFlight(Take(p, n)));
      case Handle =>
        var c := Sends(s.books, s.inbox[0])[0].routed;
        assert InFlight(Put(p, c)) == InFlight(p) + [c];
        Associative(p.done, InFlight(p), [c]);
      case RouterTake(_) =>
        assert InFlight(t.pipes[ch]) == InFlight(p);
      case RouterSend(_) =>
        assert InFlight(t.pipes[ch]) == InFlight(p);
      case _ =>
    }
  }

  /** The commands the handled messages route to one channel: those that name a map while the
      channel is the one the map is registered with. */
  function RoutedTo(w: seq<Message>, ch: Channel): seq<Incoming>
    decreases |w|
  {
    if w == [] then []
    else
      var earlier, msg := w[..|w| - 1], w[|w| - 1];
      RoutedTo(earlier, ch)
      + if msg.RouteToMap? && msg.map_ in After(earlier).senders && After(earlier).senders[msg.map_] == ch
        then [Incoming(msg.session, msg.character, msg.command)] else []
  }

  /** The coordinator's books are those of the messages it has handled, every channel it knows has
      been opened, and each pipe was sent what those messages route to it. */
  ghost predicate RoutesHold(s: State) {
    && s.books == After(s.handled)
    && (forall m :: m in s.books.senders ==> s.books.senders[m] in s.pipes)
    && (forall i :: 0 <= i < |s.inbox| && s.inbox[i].RegisterMap? ==> s.inbox[i].tx in s.pipes)
    && (forall ch :: ch in s.pipes ==> ch < s.next)
    && (forall ch :: ch in s.pipes ==> s.pipes[ch].sent == RoutedTo(s.handled, ch))
    && (forall ch :: ch !in s.pipes ==> RoutedTo(s.handled, ch) == [])
  }

  /** What one message routes to a channel. */
  function RoutedNow(b: Books, msg: Message, ch: Channel): seq<Incoming> {
    if msg.RouteToMap? && msg.map_ in b.senders && b.senders[msg.map_] == ch
    then [Incoming(msg.session, msg.character, msg.command)] else []
  }

  lemma {:induction false} RoutedSnoc(w: seq<Message>, msg: Message, ch: Channel)
    ensures RoutedTo(w + [msg], ch) == RoutedTo(w, ch) + RoutedNow(After(w), msg, ch)
  {
    assert (w + [msg])[..|w|] == w;
  }

  lemma {:induction false} DeliverSends(b: Books, msg: Message, pipes: map<Channel, Pipe>, ch: Channel)
    requires ch in pipes
    ensures var after := Deliver(pipes, Sends(b, msg));
            after.Keys == pipes.Keys && after[ch].sent == pipes[ch].sent + RoutedNow(b, msg, ch)
  {
    assert pipes[ch].sent + [] == pipes[ch].sent;
  }

  lemma {:induction false} HandleRoutesTo(s: State, ch: Channel)
    requires RoutesHold(s) && s.inbox != []
    ensures var t := AfterHandle(s);
            && (ch in t.pipes ==> t.pipes[ch].sent == RoutedTo(t.handled, ch))
            && (ch !in t.pipes ==> RoutedTo(t.handled, ch) == [])
  {
    RoutedSnoc(s.handled, s.inbox[0], ch);
    if ch in s.pipes {
      DeliverSends(s.books, s.inbox[0], s.pipes, ch);
    }
  }

  lemma {:induction false} HandleRoutes(s: State)
    requires RoutesHold(s) && s.inbox != []
    ensures RoutesHold(AfterHandle(s))
  {
    var t := AfterHandle(s);
    AfterSnoc(s.handled, s.inbox[0]);
    assert t.pipes.Keys == s.pipes.Keys;
    forall ch
      ensures ch in t.pipes ==> t.pipes[ch].sent == RoutedTo(t.handled, ch)
      ensures ch !in t.pipes ==> RoutedTo(t.handled, ch) == []
    {
      HandleRoutesTo(s, ch);
    }
  }

  lemma SendRoutes(s: State, step: Step)
    requires RoutesHold(s) && Enabled(s, step)
    requires step.Request? || step.ActivateSend? || step.UnregisterSend?
    ensures RoutesHold(Next(s, step))
  {
  }

  lemma PipeRoutes(s: State, step: Step)
    requires RoutesHold(s) && Enabled(s, step)
    requires step.RouterTake? || step.RouterSend? || step.MapTick?
    ensures RoutesHold(Next(s, step))
  {
  }

  lemma StepRoutes(s: State, step: Step)
    requires RoutesHold(s) && Enabled(s, step)
    ensures RoutesHold(Next(s, step))
  {
    if step.Handle? {
      HandleRoutes(s);
    } else if step.Request? || step.ActivateSend? || step.UnregisterSend? {
      SendRoutes(s, step);
    } else if step.RouterTake? || step.RouterSend? || step.MapTick? {
      PipeRoutes(s, step);
    }
  }

  lemma {:induction false} RunRoutes(states: seq<State>, steps: seq<Step>, i: nat)
    requires IsRun(states, steps) && i <= |steps|
    ensures RoutesHold(states[i])
    decreases i
  {
    if i > 0 {
      RunRoutes(states, steps, i - 1);
      StepRoutes(states[i - 1], steps[i - 1]);
    }
  }

  lemma {:induction false} RunConserves(states: seq<State>, steps: seq<Step>, i: nat, ch: Channel)
    requires IsRun(states, steps) && i <= |steps| && ch in states[i].pipes
    ensures Conserved(states[i].pipes[ch])
    decreases i
  {
    if i > 0 {
      if ch in states[i - 1].pipes {
        RunConserves(states, steps, i - 1, ch);
      }
      StepConserves(states[i - 1], steps[i - 1], ch);
    }
  }

  /** The message a step sends to the coordinator. */
  function PostedBy(s: State, step: Step): seq<Message> {
    match step
    case Request(msg) => [msg]
    case ActivateSend(m) => [RegisterMap(m, s.next)]
    case UnregisterSend(r) => [UnregisterMap(r.map_)]
    case _ => []
  }

  function Posted(states: seq<State>, steps: seq<Step>, i: nat): seq<Message>
    requires i <= |steps| && i <= |states|
  {
    if i == 0 then [] else Posted(states, steps, i - 1) + PostedBy(states[i - 1], steps[i - 1])
  }

  lemma StepHandlesInOrder(s: State, step: Step)
    requires Enabled(s, step)
    ensures var t := Next(s, step);
            && t.handled + t.inbox == s.handled + s.inbox + PostedBy(s, step)
            && |t.handled| == |s.handled| + if step.Handle? then 1 else 0
  {
    var t := Next(s, step);
    if step.Handle? {
      assert s.inbox == [s.inbox[0]] + s.inbox[1..];
    } else {
      Associative(s.handled, s.inbox, PostedBy(s, step));
      assert s.inbox + [] == s.inbox;
    }
  }

  /** In every run the coordinator handles the messages sent to it in the order they were sent, each
      once. */
  lemma {:induction false} HandledInOrder(states: seq<State>, steps: seq<Step>, i: nat)
    requires IsRun(states, steps) && i <= |steps|
    ensures states[i].handled + states[i].inbox == Posted(states, steps, i)
    decreases i
  {
    if i > 0 {
      HandledInOrder(states, steps, i - 1);
      StepHandlesInOrder(states[i - 1], steps[i - 1]);
    }
  }

  /** The router task's steps still needed for all that is in a pipe to reach the instance. */
  function Hops(p: Pipe): nat {
    2 * |p.world| + if p.hand.Some? then 1 else 0
  }

  /** A step of a map's router task brings a command one step nearer to the instance, a tick takes its
      intake off the instance's channel, and no other pipe changes. */
  lemma PipeProgress(s: State, step: Step, ch: Channel)
    requires Enabled(s, step) && ch in s.pipes && (step.RouterTake? || step.RouterSend? || step.MapTick?)
    ensures var p := s.pipes[ch];
            var q := if ch in Next(s, step).pipes then Next(s, step).pipes[ch] else p;
            && (step == RouterTake(ch) || step == RouterSend(ch) ==> Hops(q) == Hops(p) - 1)
            && (step == RouterSend(ch) ==> |q.cmds| == |p.cmds| + 1)
            && (step.MapTick? && step.ticking == ch ==> |q.cmds| == |p.cmds| - step.intake && Hops(q) == Hops(p))
            && (step != RouterTake(ch) && step != RouterSend(ch) && !(step.MapTick? && step.ticking == ch) ==> q == p)
  {
  }

  /** How a live instance came to be what it is: from a new one, by ticks over the commands done. */
  ghost predicate GrewFrom(inst: Instance, owner: MapId, done: seq<Incoming>, states: seq<Instance>,
                           batches: seq<seq<Incoming>>, orders: seq<Orders>)
  {
    && IsHistory(states, batches, orders) && states[0] == NewInstance(owner)
    && states[|batches|] == inst && Flatten(batches) == done
  }

  lemma GrowsBy(inst: Instance, owner: MapId, done: seq<Incoming>, states: seq<Instance>, batches: seq<seq<Incoming>>,
                orders: seq<Orders>, batch: seq<Incoming>, o: Orders)
    requires GrewFrom(inst, owner, done, states, batches, orders) && ValidOrders(o, AfterInput(inst, batch).players.Keys)
    ensures var t := Tick(inst, batch, o);
            GrewFrom(t, owner, done + batch, states + [t], batches + [batch], orders + [o])
  {
    HistorySnoc(states, batches, orders, batch, o, Tick(inst, batch, o));
    FlattenSnoc(batches, batch);
  }

  lemma OthersLeaveInstance(s: State, step: Step, ch: Channel)
    requires HandlesHold(s) && Enabled(s, step) && ch in s.live && ch in s.pipes && ch in Next(s, step).live
    requires !(step.MapTick? && step.ticking == ch)
    ensures var t := Next(s, step);
            ch in t.pipes && t.live[ch] == s.live[ch] && t.pipes[ch].owner == s.pipes[ch].owner && t.pipes[ch].done == s.pipes[ch].done
  {
  }

  lemma OnlyActivationOpens(s: State, step: Step, ch: Channel)
    requires Enabled(s, step) && ch !in s.live && ch in Next(s, step).live
    ensures var t := Next(s, step);
            ch in t.pipes && t.live[ch] == NewInstance(t.pipes[ch].owner) && t.pipes[ch].done == []
  {
  }

  /** In every run each live instance is where the ticks over exactly the commands its pipe has
      delivered, in their order, take a new instance of its map: all that holds of such histories
      holds of it. */
  lemma {:induction false} LiveHasHistory(states: seq<State>, steps: seq<Step>, i: nat, ch: Channel)
      returns (insts: seq<Instance>, batches: seq<seq<Incoming>>, orders: seq<Orders>)
    requires IsRun(states, steps) && i <= |steps| && ch in states[i].live
    ensures ch in states[i].pipes
    ensures GrewFrom(states[i].live[ch], states[i].pipes[ch].owner, states[i].pipes[ch].done, insts, batches, orders)
    decreases i
  {
    var s, step := states[i - 1], steps[i - 1];
    RunKeepsHandles(states, steps, i - 1);
    if ch in s.live {
      insts, batches, orders := LiveHasHistory(states, steps, i - 1, ch);
      if step.MapTick? && step.ticking == ch {
        var batch := s.pipes[ch].cmds[..step.intake];
        GrowsBy(s.live[ch], s.pipes[ch].owner, s.pipes[ch].done, insts, batches, orders, batch, step.orders);
        insts, batches, orders := insts + [Tick(s.live[ch], batch, step.orders)], batches + [batch], orders + [step.orders];
      } else {
        OthersLeaveInstance(s, step, ch);
      }
    } else {
      OnlyActivationOpens(s, step, ch);
      insts, batches, orders := [states[i].live[ch]], [], [];
    }
  }

  /** In every run, whatever the manager does, an instance processes exactly the commands routed to
      its map while its channel was registered, in the order routed: nothing is lost, duplicated or
      overtaken on the way. */
  lemma CommandsArriveInOrder(states: seq<State>, steps: seq<Step>, i: nat, ch: Channel)
    requires IsRun(states, steps) && i <= |steps| && ch in states[i].pipes
    ensures states[i].pipes[ch].done + InFlight(states[i].pipes[ch]) == RoutedTo(states[i].handled, ch)
    ensures states[i].books == After(states[i].handled)
  {
    RunRoutes(states, steps, i);
    RunConserves(states, steps, i, ch);
  }

  // ------------------------------------------------------------ which instances are live

  /** Where the handle of a running instance can be: in the table, or in the hands of a call. */
  datatype Holder = InTable(map_: MapId) | InActivate | InRemoval(map_: MapId) | InAbort

  predicate Held(s: State, ch: Channel, h: Holder) {
    match h
    case InTable(m) => m in s.runtimes && s.runtimes[m] == ch
    case InActivate => s.lock.Activating? && s.lock.opened_ == ch
    case InRemoval(m) => Runtime(m, ch) in s.removing
    case InAbort => ch in s.aborting
  }

  /** Every live instance has one holder, and whatever is held is live. */
  ghost predicate HandlesHold(s: State) {
    && (forall ch :: ch in s.live ==> ch < s.next && exists h :: Held(s, ch, h))
    && (forall ch, h :: Held(s, ch, h) ==> ch in s.live)
    && (forall ch, h, g :: Held(s, ch, h) && Held(s, ch, g) ==> h == g)
    && (s.lock.Activating? ==> s.lock.map_ !in s.runtimes)
  }

  /** The holder of a channel after a step that takes no lock and opens nothing. */
  function HolderAfter(s: State, step: Step, ch: Channel, h: Holder): Holder {
    match step
    case ActivateInsert => if h == InActivate && s.lock.Activating? then InTable(s.lock.map_) else h
    case DeactivateRemove(m) => if h == InTable(m) then InRemoval(m) else h
    case ShutdownTake => if h.InTable? then InRemoval(h.map_) else h
    case UnregisterSend(r) => if h == InRemoval(r.map_) && ch == r.channel then InAbort else h
    case _ => h
  }

  function HolderBefore(s: State, step: Step, ch: Channel, h: Holder): Holder {
    match step
    case ActivateInsert => if s.lock.Activating? && h == InTable(s.lock.map_) then InActivate else h
    case DeactivateRemove(m) => if h == InRemoval(m) && Runtime(m, ch) !in s.removing then InTable(m) else h
    case ShutdownTake => if h.InRemoval? && Runtime(h.map_, ch) !in s.removing then InTable(h.map_) else h
    case UnregisterSend(r) => if h == InAbort && ch !in s.aborting && ch == r.channel then InRemoval(r.map_) else h
    case _ => h
  }

  lemma HandleMoves(s: State, step: Step, ch: Channel, h: Holder)
    requires HandlesHold(s) && Enabled(s, step) && !step.ActivateSend? && !step.Abort?
    ensures Held(s, ch, h) ==> Held(Next(s, step), ch, HolderAfter(s, step, ch, h))
    ensures Held(Next(s, step), ch, h) ==> Held(s, ch, HolderBefore(s, step, ch, h))
    ensures Held(Next(s, step), ch, h) ==> HolderAfter(s, step, ch, HolderBefore(s, step, ch, h)) == h
  {
  }

  lemma MoveKeepsHandles(s: State, step: Step)
    requires HandlesHold(s) && Enabled(s, step) && !step.ActivateSend? && !step.Abort?
    ensures HandlesHold(Next(s, step))
  {
    var t := Next(s, step);
    forall ch | ch in t.live
      ensures ch < t.next && exists h :: Held(t, ch, h)
    {
      var h :| Held(s, ch, h);
      HandleMoves(s, step, ch, h);
    }
    forall ch, h | Held(t, ch, h)
      ensures ch in t.live
    {
      HandleMoves(s, step, ch, h);
    }
    forall ch, h, g | Held(t, ch, h) && Held(t, ch, g)
      ensures h == g
    {
      HandleMoves(s, step, ch, h);
      HandleMoves(s, step, ch, g);
    }
  }

  lemma ActivateSendKeepsHandles(s: State, m: MapId)
    requires HandlesHold(s) && Enabled(s, ActivateSend(m))
    ensures HandlesHold(Next(s, ActivateSend(m)))
  {
    var t := Next(s, ActivateSend(m));
    assert forall ch, h :: Held(t, ch, h) <==> Held(s, ch, h) || (ch == s.next && h == InActivate);
    assert Held(t, s.next, InActivate);
  }

  lemma AbortKeepsHandles(s: State, ch: Channel)
    requires HandlesHold(s) && Enabled(s, Abort(ch))
    ensures HandlesHold(Next(s, Abort(ch)))
  {
    var t := Next(s, Abort(ch));
    assert Held(s, ch, InAbort);
    forall other, h
      ensures Held(t, other, h) <==> Held(s, other, h) && other != ch
    {
      assert Held(s, ch, h) ==> h == InAbort;
      assert Held(t, other, h) ==> Held(s, other, h);
    }
  }

  lemma {:induction false} RunKeepsHandles(states: seq<State>, steps: seq<Step>, i: nat)
    requires IsRun(states, steps) && i <= |steps|
    ensures HandlesHold(states[i])
    decreases i
  {
    if i > 0 {
      var s, step := states[i - 1], steps[i - 1];
      RunKeepsHandles(states, steps, i - 1);
      match step
      case ActivateSend(m) => ActivateSendKeepsHandles(s, m);
      case Abort(ch) => AbortKeepsHandles(s, ch);
      case _ => MoveKeepsHandles(s, step);
    }
  }

  /** In every run, gaps or not, each live instance is held in exactly one place, the table or one
      call in progress, and each handle there is of a live instance: none is lost and none is dead. */
  lemma LiveIffHeld(states: seq<State>, steps: seq<Step>, i: nat, ch: Channel)
    requires IsRun(states, steps) && i <= |steps|
    ensures ch in states[i].live <==> exists h :: Held(states[i], ch, h)
    ensures forall h, g :: Held(states[i], ch, h) && Held(states[i], ch, g) ==> h == g
  {
    RunKeepsHandles(states, steps, i);
  }

  /** Without that condition the manager's table can name a map nobody will register: a map is taken
      out of the table, activated again, and only then unregistered. */
  lemma ReactivationInTheGap() returns (states: seq<State>, steps: seq<Step>)
    ensures IsRun(states, steps) && |steps| == 6
    ensures 1 in states[6].runtimes && states[6].lock.Free? && states[6].removing == {}
    ensures 1 !in Plan(states[6].books.senders, states[6].inbox)
  {
    var s1 := Next(START, ActivateSend(1));
    var s2 := Next(s1, ActivateInsert);
    var s3 := Next(s2, DeactivateRemove(1));
    assert s3.removing == {Runtime(1, 0)} && s3.runtimes == map[];
    var s4 := Next(s3, ActivateSend(1));
    var s5 := Next(s4, ActivateInsert);
    var s6 := Next(s5, UnregisterSend(Runtime(1, 0)));
    PlanSnoc(map[], s5.inbox, UnregisterMap(1));
    states := [START, s1, s2, s3, s4, s5, s6];
    steps := [ActivateSend(1), ActivateInsert, DeactivateRemove(1), ActivateSend(1), ActivateInsert, UnregisterSend(Runtime(1, 0))];
  }

  lemma Extend(states: seq<State>, steps: seq<Step>, step: Step) returns (longer: seq<State>, more: seq<Step>)
    requires IsRun(states, steps) && Enabled(states[|steps|], step)
    ensures IsRun(longer, more) && |more| == |steps| + 1
    ensures longer[|more|] == Next(states[|steps|], step)
  {
    longer, more := states + [Next(states[|steps|], step)], steps + [step];
  }

  const ENTER := RouteToMap(7, 5, Some(9), EnterWorld)
  const LEAVE := RouteToMap(1, 5, None, Logout)

  /** A session has been routed into map 7. */
  lemma RoutedIn() returns (states: seq<State>, steps: seq<Step>)
    ensures IsRun(states, steps)
    ensures var s := states[|steps|];
            && s.inbox == [] && s.books.senders == map[7 := 0] && s.books.sessions == map[5 := 7]
            && s.live == map[0 := NewInstance(7)]
            && s.pipes.Keys == {0} && s.pipes[0].cmds == [] && s.pipes[0].hand == None
            && s.pipes[0].world == [Incoming(5, Some(9), EnterWorld)]
  {
    states, steps := [START], [];
    states, steps := Extend(states, steps, ActivateSend(7));
    states, steps := Extend(states, steps, ActivateInsert);
    states, steps := Extend(states, steps, Handle);
    states, steps := Extend(states, steps, Request(ENTER));
    states, steps := Extend(states, steps, Handle);
  }

  lemma FirstTick(inst: Instance, batch: seq<Incoming>, o: Orders)
    requires inst == NewInstance(7) && batch == [Incoming(5, Some(9), EnterWorld)] && o == Orders([5], 5, [5])
    ensures ValidOrders(o, AfterInput(inst, batch).players.Keys) && Tick(inst, batch, o).players.Keys == {5}
  {
    InputKeys(ScheduledPhase(Advance(inst)), batch);
    assert batch[1..] == [];
    assert AfterInput(inst, batch).players.Keys == {5};
    TickKeys(inst, batch, o);
  }

  /** Its command has reached the instance. */
  lemma Delivered() returns (states: seq<State>, steps: seq<Step>)
    ensures IsRun(states, steps)
    ensures var s := states[|steps|];
            && s.inbox == [] && s.books.senders == map[7 := 0] && s.books.sessions == map[5 := 7]
            && s.live == map[0 := NewInstance(7)]
            && s.pipes.Keys == {0} && s.pipes[0].world == [] && s.pipes[0].hand == None
            && s.pipes[0].cmds == [Incoming(5, Some(9), EnterWorld)]
  {
    states, steps := RoutedIn();
    states, steps := Extend(states, steps, RouterTake(0));
    states, steps := Extend(states, steps, RouterSend(0));
  }

  /** Its instance has taken it in. */
  lemma TakenIn() returns (states: seq<State>, steps: seq<Step>)
    ensures IsRun(states, steps)
    ensures var s := states[|steps|];
            && s.inbox == [] && s.books.senders == map[7 := 0] && s.books.sessions == map[5 := 7]
            && s.live.Keys == {0} && s.live[0].players.Keys == {5} && 0 in s.pipes && InFlight(s.pipes[0]) == []
  {
    states, steps := Delivered();
    var s := states[|steps|];
    assert s.pipes[0].cmds[..1] == [Incoming(5, Some(9), EnterWorld)];
    FirstTick(s.live[0], s.pipes[0].cmds[..1], Orders([5], 5, [5]));
    states, steps := Extend(states, steps, MapTick(0, 1, Orders([5], 5, [5])));
  }

  /** A Logout that names another map does leave a player behind: here a session is on map 7, its
      Logout is routed to map 1, and map 7's live instance keeps it with nothing in flight. */
  lemma MisroutedLogoutLeavesPlayer() returns (states: seq<State>, steps: seq<Step>)
    ensures IsRun(states, steps)
    ensures var s := states[|steps|];
            && s.inbox == [] && s.books.senders == map[7 := 0] && 5 !in s.books.sessions
            && s.live.Keys == {0} && 5 in s.live[0].players && 0 in s.pipes && InFlight(s.pipes[0]) == []
            && !SessionsAgree(s)
  {
    states, steps := TakenIn();
    states, steps := Extend(states, steps, Request(LEAVE));
    states, steps := Extend(states, steps, Handle);
    var s := states[|steps|];
    assert On(s.books.sessions, 7) == {};
    assert Roster(s, 0) == {5};
  }
}
