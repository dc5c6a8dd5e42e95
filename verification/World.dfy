/** The world coordinator of crates/world: its message loop, and how far its per-map counters can
    be trusted as a cache of the sessions it tracks. */
module World {
  import opened Wrappers
  import opened Commands
  import opened MapServer

  // --------------------------------------------------------------------- state

  const U64_MAX: nat := 0xFFFF_FFFF_FFFF_FFFF

  /** Which channel a sender feeds: each activation of a map opens a new one. */
  type Channel = nat

  datatype Message =
    | RegisterMap(registered: MapId, tx: Channel)
    | UnregisterMap(unregistered: MapId)
    | RouteToMap(map_: MapId, session: Uuid, character: Option<Uuid>, command: ClientCommand)
    | Broadcast(message: string)
    | GetStats

  datatype Books = Books(senders: map<MapId, Channel>, counters: map<MapId, nat>, sessions: map<Uuid, MapId>)

  const EMPTY := Books(map[], map[], map[])

  datatype Delivery = Delivery(to: Channel, routed: Incoming)

  datatype Stats = Stats(onlinePlayers: nat, playersByMap: map<MapId, nat>)

  // ---------------------------------------------------------------- one message

  function Count(counters: map<MapId, nat>, m: MapId): nat {
    if m in counters then counters[m] else 0
  }

  function Raise(counters: map<MapId, nat>, m: MapId): map<MapId, nat> {
    counters[m := Min(Count(counters, m) + 1, U64_MAX)]
  }

  function Lower(counters: map<MapId, nat>, m: MapId): map<MapId, nat> {
    counters[m := Max(Count(counters, m) - 1, 0)]
  }

  function Without(sessions: map<Uuid, MapId>, m: MapId): map<Uuid, MapId> {
    map id | id in sessions && sessions[id] != m :: sessions[id]
  }

  function EnterMap(b: Books, id: Uuid, m: MapId): Books {
    var moved := b.(sessions := b.sessions[id := m]);
    if id !in b.sessions then moved.(counters := Raise(b.counters, m))
    else if b.sessions[id] == m then moved
    else moved.(counters := Raise(Lower(b.counters, b.sessions[id]), m))
  }

  function LeaveMap(b: Books, id: Uuid, named: MapId): Books {
    var m := if id in b.sessions then b.sessions[id] else named;
    b.(sessions := b.sessions - {id}, counters := Lower(b.counters, m))
  }

  /** The coordinator's books after one message. */
  function Apply(b: Books, msg: Message): Books {
    match msg
    case RegisterMap(m, tx) =>
      b.(senders := b.senders[m := tx],
         counters := if m in b.counters then b.counters else b.counters[m := 0])
    case UnregisterMap(m) =>
      Books(b.senders - {m}, b.counters - {m}, Without(b.sessions, m))
    case RouteToMap(m, id, _, command) =>
      if command.EnterWorld? then EnterMap(b, id, m)
      else if command.Logout? then LeaveMap(b, id, m)
      else b
    case Broadcast(_) => b
    case GetStats => b
  }

  /** What the message makes the coordinator send to map instances. */
  function Sends(b: Books, msg: Message): seq<Delivery> {
    if msg.RouteToMap? && msg.map_ in b.senders
    then [Delivery(b.senders[msg.map_], Incoming(msg.session, msg.character, msg.command))]
    else []
  }

  /** The books after a whole sequence of messages. */
  function After(w: seq<Message>): Books
    decreases |w|
  {
    if w == [] then EMPTY else Apply(After(w[..|w| - 1]), w[|w| - 1])
  }

  lemma AfterSnoc(w: seq<Message>, msg: Message)
    ensures After(w + [msg]) == Apply(After(w), msg)
  {
    assert (w + [msg])[..|w|] == w;
  }

  // ------------------------------------------------------------- counting sessions

  ghost function On(sessions: map<Uuid, MapId>, m: MapId): set<Uuid> {
    set id | id in sessions && sessions[id] == m
  }

  /** How many sessions the coordinator places on a map. */
  ghost function Tracked(b: Books, m: MapId): nat {
    |On(b.sessions, m)|
  }

  ghost function Gap(b: Books, m: MapId): int {
    Tracked(b, m) - Count(b.counters, m)
  }

  /** A logout from a session the coordinator does not track. */
  predicate IsStray(b: Books, msg: Message) {
    msg.RouteToMap? && msg.command.Logout? && msg.session !in b.sessions
  }

  /** The stray logouts of a sequence of messages that name a map. */
  function Strays(w: seq<Message>, m: MapId): nat
    decreases |w|
  {
    if w == [] then 0
    else
      var msg := w[|w| - 1];
      Strays(w[..|w| - 1], m) + if IsStray(After(w[..|w| - 1]), msg) && msg.map_ == m then 1 else 0
  }

  function AllStrays(w: seq<Message>): nat
    decreases |w|
  {
    if w == [] then 0
    else AllStrays(w[..|w| - 1]) + if IsStray(After(w[..|w| - 1]), w[|w| - 1]) then 1 else 0
  }

  lemma Placed(sessions: map<Uuid, MapId>, id: Uuid, m: MapId, other: MapId)
    ensures |On(sessions[id := m], other)|
         == |On(sessions, other)| + (if other == m && id !in On(sessions, m) then 1 else 0)
            - (if other != m && id in On(sessions, other) then 1 else 0)
  {
    if other == m {
      assert On(sessions[id := m], m) == On(sessions, m) + {id};
    } else {
      assert On(sessions[id := m], other) == On(sessions, other) - {id};
    }
  }

  lemma Removed(sessions: map<Uuid, MapId>, id: Uuid, other: MapId)
    ensures |On(sessions - {id}, other)| == |On(sessions, other)| - (if id in On(sessions, other) then 1 else 0)
  {
    assert On(sessions - {id}, other) == On(sessions, other) - {id};
  }

  lemma Dismissed(sessions: map<Uuid, MapId>, m: MapId, other: MapId)
    ensures |On(Without(sessions, m), other)| == if other == m then 0 else |On(sessions, other)|
  {
    assert On(Without(sessions, m), other) == if other == m then {} else On(sessions, other);
  }

  lemma TrackedAreSessions(b: Books, m: MapId)
    ensures Tracked(b, m) <= |b.sessions|
  {
    Subset(On(b.sessions, m), b.sessions.Keys);
  }

  lemma {:induction false} Subset<T>(a: set<T>, b: set<T>)
    requires a <= b
    ensures |a| <= |b|
    decreases |a|
  {
    if a != {} {
      var x :| x in a;
      Subset(a - {x}, b - {x});
    }
  }

  // ------------------------------------------------- the books, told from the messages

  /** The message places the session on the map. */
  predicate Places(msg: Message, id: Uuid, m: MapId) {
    msg.RouteToMap? && msg.command.EnterWorld? && msg.session == id && msg.map_ == m
  }

  /** The message may take the session off the map: it enters one, logs out, or the map goes. */
  predicate Unplaces(msg: Message, id: Uuid, m: MapId) {
    || (msg.RouteToMap? && (msg.command.EnterWorld? || msg.command.Logout?) && msg.session == id)
    || msg == UnregisterMap(m)
  }

  ghost predicate PlacedAt(w: seq<Message>, i: nat, id: Uuid, m: MapId) {
    i < |w| && Places(w[i], id, m) && forall k :: i < k < |w| ==> !Unplaces(w[k], id, m)
  }

  /** A session is on a map exactly if some EnterWorld of it named the map and since then it has
      neither entered again nor logged out, nor was the map unregistered. */
  lemma {:induction false} WhereSessionsAre(w: seq<Message>, id: Uuid, m: MapId)
    ensures id in After(w).sessions && After(w).sessions[id] == m <==> exists i :: PlacedAt(w, i, id, m)
    decreases |w|
  {
    if w != [] {
      var n := |w| - 1;
      WhereSessionsAre(w[..n], id, m);
      if Places(w[n], id, m) {
        assert PlacedAt(w, n, id, m);
      } else {
        if i: nat :| PlacedAt(w[..n], i, id, m) && !Unplaces(w[n], id, m) {
          assert PlacedAt(w, i, id, m);
        }
        if i: nat :| PlacedAt(w, i, id, m) {
          assert !Unplaces(w[n], id, m);
          assert PlacedAt(w[..n], i, id, m);
        }
      }
    }
  }

  ghost predicate RegisteredAt(w: seq<Message>, i: nat, m: MapId, tx: Channel) {
    && i < |w| && w[i] == RegisterMap(m, tx)
    && forall k :: i < k < |w| ==> w[k] != UnregisterMap(m) && !(w[k].RegisterMap? && w[k].registered == m)
  }

  /** A map's commands go to a channel exactly if the last registration of the map named it and the
      map was not unregistered since. */
  lemma {:induction false} WhereMapsAre(w: seq<Message>, m: MapId, tx: Channel)
    ensures m in After(w).senders && After(w).senders[m] == tx <==> exists i :: RegisteredAt(w, i, m, tx)
    decreases |w|
  {
    if w != [] {
      var n := |w| - 1;
      WhereMapsAre(w[..n], m, tx);
      if w[n] == RegisterMap(m, tx) {
        assert RegisteredAt(w, n, m, tx);
      } else {
        if i: nat :| RegisteredAt(w[..n], i, m, tx) && w[n] != UnregisterMap(m) && !(w[n].RegisterMap? && w[n].registered == m) {
          assert RegisteredAt(w, i, m, tx);
        }
        if i: nat :| RegisteredAt(w, i, m, tx) {
          assert RegisteredAt(w[..n], i, m, tx);
        }
      }
    }
  }

  /** Every registered map has a counter; a new one starts at 0, and unregistering takes it away. */
  lemma {:induction false} RegisteredMapsAreCounted(w: seq<Message>, m: MapId)
    ensures m in After(w).senders ==> m in After(w).counters
    ensures m !in After(w).counters ==> m in After(w + [RegisterMap(m, 0)]).counters && After(w + [RegisterMap(m, 0)]).counters[m] == 0
    ensures m !in After(w + [UnregisterMap(m)]).counters
    decreases |w|
  {
    AfterSnoc(w, RegisterMap(m, 0));
    AfterSnoc(w, UnregisterMap(m));
    if w != [] {
      RegisteredMapsAreCounted(w[..|w| - 1], m);
    }
  }

  // ------------------------------------------------------------ counter accuracy

  ghost predicate NeverOvercounts(b: Books) {
    forall m :: Gap(b, m) >= 0
  }

  lemma StepKeepsGap(b: Books, msg: Message, m: MapId)
    requires NeverOvercounts(b)
    ensures Gap(Apply(b, msg), m) >= 0
    ensures |b.sessions| < 0xFFFF_FFFF_FFFF_FFFF ==>
              Gap(Apply(b, msg), m) <= Gap(b, m) + if IsStray(b, msg) && msg.map_ == m then 1 else 0
  {
    assert Gap(b, m) >= 0;
    TrackedAreSessions(b, m);
    if msg.RouteToMap? && msg.command.EnterWorld? {
      Placed(b.sessions, msg.session, msg.map_, m);
      assert Gap(b, msg.map_) >= 0;
    } else if msg.RouteToMap? && msg.command.Logout? {
      Removed(b.sessions, msg.session, m);
    } else if msg.UnregisterMap? {
      Dismissed(b.sessions, msg.unregistered, m);
    }
  }

  lemma StepAddsOneSession(b: Books, msg: Message)
    ensures |Apply(b, msg).sessions| <= |b.sessions| + 1
  {
    if msg.RouteToMap? && msg.command.EnterWorld? {
      assert b.sessions[msg.session := msg.map_].Keys == b.sessions.Keys + {msg.session};
    } else {
      Subset(Apply(b, msg).sessions.Keys, b.sessions.Keys);
    }
  }

  lemma {:induction false} SessionsBounded(w: seq<Message>)
    ensures |After(w).sessions| <= |w|
    decreases |w|
  {
    if w != [] {
      SessionsBounded(w[..|w| - 1]);
      StepAddsOneSession(After(w[..|w| - 1]), w[|w| - 1]);
    }
  }

  /** No counter ever exceeds the number of sessions on its map, whatever is sent. */
  lemma {:induction false} CountersNeverExceed(w: seq<Message>)
    ensures NeverOvercounts(After(w))
    decreases |w|
  {
    if w == [] {
      assert forall m :: Gap(EMPTY, m) == 0;
    } else {
      CountersNeverExceed(w[..|w| - 1]);
      forall m
        ensures Gap(After(w), m) >= 0
      {
        StepKeepsGap(After(w[..|w| - 1]), w[|w| - 1], m);
      }
    }
  }

  /** Over any sequence of messages a counter falls short of the sessions on its map by at most the
      number of stray logouts that named the map; with none it is exact. */
  lemma {:induction false} CounterAccuracy(w: seq<Message>, m: MapId)
    requires |w| <= 0xFFFF_FFFF_FFFF_FFFF
    ensures 0 <= Tracked(After(w), m) - Count(After(w).counters, m) <= Strays(w, m)
    decreases |w|
  {
    CountersNeverExceed(w);
    if w == [] {
      assert Gap(EMPTY, m) == 0;
    } else {
      var before := w[..|w| - 1];
      CounterAccuracy(before, m);
      SessionsBounded(before);
      CountersNeverExceed(before);
      StepKeepsGap(After(before), w[|w| - 1], m);
    }
    assert Gap(After(w), m) >= 0;
  }

  ghost predicate Exact(b: Books) {
    forall m :: Gap(b, m) == 0
  }

  /** What breaks exact counters, exactly: a stray logout that names a map with sessions on it. */
  lemma ExactUnlessStray(b: Books, msg: Message)
    requires Exact(b) && |b.sessions| < 0xFFFF_FFFF_FFFF_FFFF
    ensures Exact(Apply(b, msg)) <==> !(IsStray(b, msg) && Tracked(b, msg.map_) > 0)
  {
    assert NeverOvercounts(b);
    if IsStray(b, msg) && Tracked(b, msg.map_) > 0 {
      Removed(b.sessions, msg.session, msg.map_);
      assert Gap(b, msg.map_) == 0;
      assert Gap(Apply(b, msg), msg.map_) == 1;
    } else {
      forall m
        ensures Gap(Apply(b, msg), m) == 0
      {
        assert Gap(b, m) == 0;
        StepKeepsGap(b, msg, m);
        if IsStray(b, msg) {
          Removed(b.sessions, msg.session, m);
        }
      }
    }
  }

  /** It does happen: one session enters map 1, another that never entered logs out of it, and the
      map's counter reads 0 with one session on it. */
  lemma StrayLogoutMiscounts() returns (w: seq<Message>)
    ensures |w| == 3 && IsStray(After(w[..2]), w[2])
    ensures Tracked(After(w), 1) == 1 && Count(After(w).counters, 1) == 0
  {
    var register, enter, leave := RegisterMap(1, 0), RouteToMap(1, 5, None, EnterWorld), RouteToMap(1, 6, None, Logout);
    AfterSnoc([], register);
    AfterSnoc([register], enter);
    AfterSnoc([register, enter], leave);
    assert [] + [register] == [register] && [register] + [enter] == [register, enter];
    w := [register, enter, leave];
    assert [register, enter] + [leave] == w && w[..2] == [register, enter];
    assert On(After(w).sessions, 1) == {5};
  }

  // ------------------------------------------------------------- the online total

  /** The sum of all counters. */
  ghost function Total(counters: map<MapId, nat>): nat
    decreases |counters|
  {
    if m: MapId :| m in counters then counters[m] + Total(counters - {m}) else 0
  }

  lemma {:induction false} TotalWithout(counters: map<MapId, nat>, m: MapId)
    requires m in counters
    ensures Total(counters) == counters[m] + Total(counters - {m})
    decreases |counters|
  {
    var n :| n in counters && Total(counters) == counters[n] + Total(counters - {n});
    if m != n {
      TotalWithout(counters - {n}, m);
      TotalWithout(counters - {m}, n);
      assert counters - {n} - {m} == counters - {m} - {n};
    }
  }

  lemma TotalUpdate(counters: map<MapId, nat>, m: MapId, v: nat)
    ensures Total(counters[m := v]) == Total(counters) - Count(counters, m) + v
  {
    TotalWithout(counters[m := v], m);
    assert counters[m := v] - {m} == counters - {m};
    if m in counters {
      TotalWithout(counters, m);
    } else {
      assert counters - {m} == counters;
    }
  }

  /** Every session is on a map that has a counter. */
  ghost predicate MapsAreCounted(b: Books) {
    forall id :: id in b.sessions ==> b.sessions[id] in b.counters
  }

  lemma {:induction false} MapsStayCounted(w: seq<Message>)
    ensures MapsAreCounted(After(w))
    decreases |w|
  {
    if w != [] {
      MapsStayCounted(w[..|w| - 1]);
    }
  }

  /** The total of a set of maps is at most the sessions on them, when no counter exceeds its map's. */
  lemma {:induction false} TotalAtMost(b: Books, counters: map<MapId, nat>, ids: set<Uuid>)
    requires forall m :: m in counters ==> counters[m] <= Tracked(b, m)
    requires forall id, m :: m in counters && id in On(b.sessions, m) ==> id in ids
    ensures Total(counters) <= |ids|
    decreases |counters|
  {
    if m: MapId :| m in counters {
      var here := On(b.sessions, m);
      TotalAtMost(b, counters - {m}, ids - here);
      TotalWithout(counters, m);
      assert here <= ids;
      assert |ids| == |ids - here| + |here| by { assert ids == (ids - here) + here; }
    }
  }

  lemma TotalNeverExceeds(w: seq<Message>)
    ensures Total(After(w).counters) <= |After(w).sessions|
  {
    var b := After(w);
    CountersNeverExceed(w);
    forall m | m in b.counters
      ensures b.counters[m] <= Tracked(b, m)
    {
      assert Gap(b, m) >= 0;
    }
    TotalAtMost(b, b.counters, b.sessions.Keys);
  }

  lemma StepKeepsShortfall(b: Books, msg: Message)
    requires NeverOvercounts(b) && MapsAreCounted(b) && |b.sessions| < U64_MAX
    ensures |Apply(b, msg).sessions| - Total(Apply(b, msg).counters)
         <= |b.sessions| - Total(b.counters) + if IsStray(b, msg) then 1 else 0
  {
    match msg
    case RegisterMap(m, _) => TotalUpdate(b.counters, m, 0);
    case UnregisterMap(m) => UnregisterKeepsShortfall(b, m);
    case RouteToMap(m, id, _, command) =>
      if command.EnterWorld? {
        assert Gap(b, m) >= 0;
        assert id in b.sessions ==> Gap(b, b.sessions[id]) >= 0;
        EnterKeepsShortfall(b, id, m);
      } else if command.Logout? {
        LeaveKeepsShortfall(b, id, m);
      }
    case Broadcast(_) =>
    case GetStats =>
  }

  lemma SizeOfDismissal(sessions: map<Uuid, MapId>, m: MapId)
    ensures |Without(sessions, m)| == |sessions| - |On(sessions, m)|
  {
    assert sessions.Keys == Without(sessions, m).Keys + On(sessions, m);
    assert Without(sessions, m).Keys !! On(sessions, m);
  }

  lemma UnregisterKeepsShortfall(b: Books, m: MapId)
    requires Gap(b, m) >= 0
    ensures |Without(b.sessions, m)| - Total(b.counters - {m}) <= |b.sessions| - Total(b.counters)
  {
    SizeOfDismissal(b.sessions, m);
    if m in b.counters {
      TotalWithout(b.counters, m);
    } else {
      assert b.counters - {m} == b.counters;
    }
  }

  lemma RaisedTotal(counters: map<MapId, nat>, m: MapId)
    requires Count(counters, m) < U64_MAX
    ensures Total(Raise(counters, m)) == Total(counters) + 1
  {
    TotalUpdate(counters, m, Count(counters, m) + 1);
  }

  lemma LoweredTotal(counters: map<MapId, nat>, m: MapId)
    ensures Total(Lower(counters, m)) == Total(counters) - Min(Count(counters, m), 1)
  {
    TotalUpdate(counters, m, Max(Count(counters, m) - 1, 0));
  }

  lemma SizeWith(sessions: map<Uuid, MapId>, id: Uuid, m: MapId)
    ensures |sessions[id := m]| == |sessions| + if id in sessions then 0 else 1
  {
    assert sessions[id := m].Keys == sessions.Keys + {id};
  }

  lemma SizeWithout(sessions: map<Uuid, MapId>, id: Uuid)
    ensures |sessions - {id}| == |sessions| - if id in sessions then 1 else 0
  {
    assert (sessions - {id}).Keys == sessions.Keys - {id};
  }

  lemma EnterKeepsShortfall(b: Books, id: Uuid, m: MapId)
    requires Gap(b, m) >= 0 && |b.sessions| < U64_MAX
    requires id in b.sessions ==> Gap(b, b.sessions[id]) >= 0
    ensures |EnterMap(b, id, m).sessions| - Total(EnterMap(b, id, m).counters) <= |b.sessions| - Total(b.counters)
  {
    TrackedAreSessions(b, m);
    SizeWith(b.sessions, id, m);
    if id !in b.sessions {
      RaisedTotal(b.counters, m);
    } else if b.sessions[id] != m {
      LoweredTotal(b.counters, b.sessions[id]);
      RaisedTotal(Lower(b.counters, b.sessions[id]), m);
    }
  }

  lemma LeaveKeepsShortfall(b: Books, id: Uuid, named: MapId)
    ensures |LeaveMap(b, id, named).sessions| - Total(LeaveMap(b, id, named).counters)
         <= |b.sessions| - Total(b.counters) + if id in b.sessions then 0 else 1
  {
    LoweredTotal(b.counters, if id in b.sessions then b.sessions[id] else named);
    SizeWithout(b.sessions, id);
  }

  /** The online total is at most the number of tracked sessions and falls short of it by at most
      the stray logouts so far; with none it is that number. */
  lemma {:induction false} OnlineTotal(w: seq<Message>)
    requires |w| <= 0xFFFF_FFFF_FFFF_FFFF
    ensures 0 <= |After(w).sessions| - Total(After(w).counters) <= AllStrays(w)
    decreases |w|
  {
    TotalNeverExceeds(w);
    if w != [] {
      var before := w[..|w| - 1];
      OnlineTotal(before);
      SessionsBounded(before);
      CountersNeverExceed(before);
      MapsStayCounted(before);
      StepKeepsShortfall(After(before), w[|w| - 1]);
    }
  }

  // ---------------------------------------------------------------- the coordinator

  class WorldCoordinator {
    var mapSenders: map<MapId, Channel>
    var playersByMap: map<MapId, nat>
    var sessionMap: map<Uuid, MapId>

    ghost function View(): Books
      reads this
    {
      Books(mapSenders, playersByMap, sessionMap)
    }

    constructor ()
      ensures View() == EMPTY
    {
      mapSenders, playersByMap, sessionMap := map[], map[], map[];
    }

    method RegisterMap(m: MapId, tx: Channel)
      modifies this
      ensures View() == Apply(old(View()), Message.RegisterMap(m, tx))
    {
      mapSenders := mapSenders[m := tx];
      if m !in playersByMap {
        playersByMap := playersByMap[m := 0];
      }
    }

    method UnregisterMap(m: MapId)
      modifies this
      ensures View() == Apply(old(View()), Message.UnregisterMap(m))
    {
      mapSenders := mapSenders - {m};
      playersByMap := playersByMap - {m};
      sessionMap := map id | id in sessionMap && sessionMap[id] != m :: sessionMap[id];
    }

    method SaturatingAdd(m: MapId)
      modifies `playersByMap
      ensures playersByMap == Raise(old(playersByMap), m)
      ensures m in playersByMap && playersByMap - {m} == old(playersByMap) - {m}
      ensures var was := Count(old(playersByMap), m);
              playersByMap[m] == if was < 0xFFFF_FFFF_FFFF_FFFF then was + 1 else 0xFFFF_FFFF_FFFF_FFFF
    {
      if m !in playersByMap {
        playersByMap := playersByMap[m := 0];
      }
      if playersByMap[m] + 1 <= U64_MAX {
        playersByMap := playersByMap[m := playersByMap[m] + 1];
      } else {
        playersByMap := playersByMap[m := U64_MAX];
      }
    }

    method SaturatingSub(m: MapId)
      modifies `playersByMap
      ensures playersByMap == Lower(old(playersByMap), m)
      ensures m in playersByMap && playersByMap - {m} == old(playersByMap) - {m}
      ensures var was := Count(old(playersByMap), m); playersByMap[m] == if was > 0 then was - 1 else 0
    {
      if m !in playersByMap {
        playersByMap := playersByMap[m := 0];
      }
      if playersByMap[m] > 0 {
        playersByMap := playersByMap[m := playersByMap[m] - 1];
      }
    }

    method RouteToMap(m: MapId, id: Uuid, character: Option<Uuid>, command: ClientCommand) returns (sent: seq<Delivery>)
      modifies this
      ensures View() == Apply(old(View()), Message.RouteToMap(m, id, character, command))
      ensures sent == Sends(old(View()), Message.RouteToMap(m, id, character, command))
    {
      if command.EnterWorld? {
        var prev := if id in sessionMap then Some(sessionMap[id]) else None;
        sessionMap := sessionMap[id := m];
        if prev != Some(m) {
          if prev.Some? {
            SaturatingSub(prev.value);
          }
          SaturatingAdd(m);
        }
      } else if command.Logout? {
        var left := if id in sessionMap then sessionMap[id] else m;
        sessionMap := sessionMap - {id};
        SaturatingSub(left);
      }
      sent := [];
      if m in mapSenders {
        sent := [Delivery(mapSenders[m], Incoming(id, character, command))];
      }
    }

    /** Sums the counters in the order the table yields them. */
    method ReadStats() returns (stats: Stats)
      ensures stats == Stats(Total(playersByMap), playersByMap)
    {
      var online: nat := 0;
      var left := playersByMap;
      while left.Keys != {}
        invariant online + Total(left) == Total(playersByMap)
        decreases |left|
      {
        ghost var some := SomeMember(left.Keys);
        assert some in left;
        var m :| m in left;
        TotalWithout(left, m);
        online, left := online + left[m], left - {m};
      }
      stats := Stats(online, playersByMap);
    }

    /** The body of the message loop: one message. */
    method Handle(msg: Message) returns (sent: seq<Delivery>)
      modifies this
      ensures View() == Apply(old(View()), msg) && sent == Sends(old(View()), msg)
    {
      sent := [];
      match msg {
        case RegisterMap(m, tx) => RegisterMap(m, tx);
        case UnregisterMap(m) => UnregisterMap(m);
        case RouteToMap(m, id, character, command) => sent := RouteToMap(m, id, character, command);
        case Broadcast(_) =>
        case GetStats => var _ := ReadStats();
      }
    }

    /** The message loop, over any sequence of messages from the coordinator's creation. */
    method Run(inbox: seq<Message>) returns (sent: seq<Delivery>)
      requires View() == EMPTY
      modifies this
      ensures View() == After(inbox) && sent == AllSends(inbox)
    {
      sent := [];
      var i := 0;
      while i < |inbox|
        invariant 0 <= i <= |inbox| && View() == After(inbox[..i]) && sent == AllSends(inbox[..i])
      {
        assert inbox[..i + 1][..i] == inbox[..i];
        var out := Handle(inbox[i]);
        sent := sent + out;
        i := i + 1;
      }
      assert inbox[..i] == inbox;
    }
  }

  function AllSends(w: seq<Message>): seq<Delivery>
    decreases |w|
  {
    if w == [] then [] else AllSends(w[..|w| - 1]) + Sends(After(w[..|w| - 1]), w[|w| - 1])
  }
}
