/** A tick's whole output, in order: what it puts on the event stream and what it asks to persist.
    All but the combat is told from the batch and the roster; the combat is what its phases emit. */
module TickOrder {
  import opened Wrappers
  import opened Commands
  import opened MapServer
  import opened MapLaws
  import opened MapRuns

  // -------------------------------------------------------- the input's own output

  /** The text a command is answered or relayed with. */
  function AsReply(c: Incoming): Option<Event> {
    match c.command
    case Chat(message) => Some(Say(c.session, Plain(message)))
    case Whisper(to, message) => Some(Say(c.session, WhisperTo(to, message)))
    case GuildChat(message) => Some(Say(c.session, GuildText(message)))
    case Heartbeat => Some(Say(c.session, HeartbeatAck))
    case _ => None
  }

  /** Which character each online session plays. */
  type Registry = map<Uuid, Uuid>

  function RegistryOf(players: map<Uuid, Player>): Registry {
    map id | id in players :: players[id].character
  }

  function Registered(r: Registry, c: Incoming): Registry {
    if c.command.EnterWorld? then r[c.session := c.character.GetOr(c.session)]
    else if c.command.Logout? then r - {c.session}
    else r
  }

  function Save(r: Registry, c: Incoming, mapId: MapId): seq<PersistOp> {
    if c.command.Move? && c.session in r then [SavePosition(r[c.session], mapId, c.command.x, c.command.y)] else []
  }

  /** The positions a batch asks to persist: each move's, if its session is online at that point. */
  function Saves(r: Registry, batch: seq<Incoming>, mapId: MapId): seq<PersistOp>
    decreases |batch|
  {
    if batch == [] then [] else Save(r, batch[0], mapId) + Saves(Registered(r, batch[0]), batch[1..], mapId)
  }

  function AsReason(c: ClientCommand): Option<Reason> {
    match c
    case PickupItem(_) => Some(PickedUp)
    case DropItem(slot, quantity) => Some(Dropped(slot, quantity))
    case UseItem(slot) => Some(Used(slot))
    case _ => None
  }

  function Change(r: Registry, c: Incoming): seq<(Uuid, Reason)> {
    match AsReason(c.command)
    case None => []
    case Some(reason) => [((if c.session in r then r[c.session] else c.session), reason)]
  }

  /** The inventory changes of a batch, each under the character its session then plays, or under
      the session itself if it is not online. */
  function Changes(r: Registry, batch: seq<Incoming>): seq<(Uuid, Reason)>
    decreases |batch|
  {
    if batch == [] then [] else Change(r, batch[0]) + Changes(Registered(r, batch[0]), batch[1..])
  }

  lemma InputOneReplies(s: Instance, c: Incoming)
    ensures InputOne(s, c).outbound == s.outbound + if AsReply(c).Some? then [AsReply(c).value] else []
  {
    assert s.outbound + [] == s.outbound;
  }

  lemma {:induction false} InputReplies(s: Instance, batch: seq<Incoming>)
    ensures Input(s, batch).outbound == s.outbound + Pick(AsReply, batch)
    decreases |batch|
  {
    if batch == [] {
      assert s.outbound + [] == s.outbound;
    } else {
      var now := if AsReply(batch[0]).Some? then [AsReply(batch[0]).value] else [];
      InputOneReplies(s, batch[0]);
      InputReplies(InputOne(s, batch[0]), batch[1..]);
      Associative(s.outbound, now, Pick(AsReply, batch[1..]));
      assert Pick(AsReply, batch) == now + Pick(AsReply, batch[1..]);
    }
  }

  lemma RosterChanges(s: Instance, c: Incoming)
    ensures RegistryOf(InputOne(s, c).players) == Registered(RegistryOf(s.players), c)
  {
    if !c.command.EnterWorld? && !c.command.Logout? && !c.command.Move? {
      OthersKeepPlayers(s, c);
    }
  }

  lemma InputOneSaves(s: Instance, c: Incoming)
    ensures InputOne(s, c).persist == s.persist + Save(RegistryOf(s.players), c, s.mapId)
    ensures InputOne(s, c).mapId == s.mapId
  {
    assert s.persist + [] == s.persist;
  }

  lemma InputOneChanges(s: Instance, c: Incoming)
    ensures InputOne(s, c).inventory == s.inventory + Change(RegistryOf(s.players), c)
  {
    assert s.inventory + [] == s.inventory;
  }

  lemma {:induction false} InputSaves(s: Instance, batch: seq<Incoming>)
    ensures Input(s, batch).persist == s.persist + Saves(RegistryOf(s.players), batch, s.mapId)
    ensures Input(s, batch).mapId == s.mapId
    decreases |batch|
  {
    if batch == [] {
      assert s.persist + [] == s.persist;
    } else {
      var r := RegistryOf(s.players);
      InputOneSaves(s, batch[0]);
      RosterChanges(s, batch[0]);
      InputSaves(InputOne(s, batch[0]), batch[1..]);
      Associative(s.persist, Save(r, batch[0], s.mapId), Saves(Registered(r, batch[0]), batch[1..], s.mapId));
    }
  }

  lemma {:induction false} InputChanges(s: Instance, batch: seq<Incoming>)
    ensures Input(s, batch).inventory == s.inventory + Changes(RegistryOf(s.players), batch)
    decreases |batch|
  {
    if batch == [] {
      assert s.inventory + [] == s.inventory;
    } else {
      var r := RegistryOf(s.players);
      InputOneChanges(s, batch[0]);
      RosterChanges(s, batch[0]);
      InputChanges(InputOne(s, batch[0]), batch[1..]);
      Associative(s.inventory, Change(r, batch[0]), Changes(Registered(r, batch[0]), batch[1..]));
    }
  }

  // --------------------------------------------------------------------- positions

  /** Where a session stands after its own commands: at the entrance when it comes in, then where
      its last move put it. */
  function Stand(at: Option<(int, int)>, batch: seq<Incoming>, id: Uuid): Option<(int, int)>
    decreases |batch|
  {
    if batch == [] then at
    else
      var c := batch[0];
      var next :=
        if c.session != id then at
        else if c.command.EnterWorld? then (if at.Some? then at else Some((100, 100)))
        else if c.command.Logout? then None
        else if c.command.Move? && at.Some? then Some((c.command.x, c.command.y))
        else at;
      Stand(next, batch[1..], id)
  }

  function PlaceOf(s: Instance, id: Uuid): Option<(int, int)> {
    if id in s.players then Some((s.players[id].x, s.players[id].y)) else None
  }

  lemma InputOnePlace(s: Instance, c: Incoming, id: Uuid)
    ensures PlaceOf(InputOne(s, c), id) == Stand(PlaceOf(s, id), [c], id)
  {
    if !c.command.EnterWorld? && !c.command.Logout? && !c.command.Move? {
      OthersKeepPlayers(s, c);
    }
  }

  lemma StandFirst(at: Option<(int, int)>, batch: seq<Incoming>, id: Uuid)
    requires batch != []
    ensures Stand(at, batch, id) == Stand(Stand(at, [batch[0]], id), batch[1..], id)
  {
  }

  /** A session's position depends on its own commands alone, whatever the others do. */
  lemma {:induction false} InputPlaces(s: Instance, batch: seq<Incoming>, id: Uuid)
    ensures PlaceOf(Input(s, batch), id) == Stand(PlaceOf(s, id), batch, id)
    decreases |batch|
  {
    if batch != [] {
      InputOnePlace(s, batch[0], id);
      StandFirst(PlaceOf(s, id), batch, id);
      InputPlaces(InputOne(s, batch[0]), batch[1..], id);
    }
  }

  lemma {:induction false} AttacksKeepPlaces(players: map<Uuid, Player>, attacks: seq<(Uuid, Uuid)>, tick: nat, id: Uuid)
    requires id in players
    ensures var after := ResolveAttacks(players, attacks, tick).players;
            id in after && after[id].x == players[id].x && after[id].y == players[id].y
    decreases |attacks|
  {
    if attacks != [] {
      var (a, d) := attacks[0];
      if a in players && d in players {
        AttacksKeepPlaces(players[d := Hurt(players[d], AttackDamage(tick))], attacks[1..], tick, id);
      } else {
        AttacksKeepPlaces(players, attacks[1..], tick, id);
      }
    }
  }

  lemma {:induction false} ChargeKeepsPlaces(players: map<Uuid, Player>, casts: seq<Cast>, resolved: map<Uuid, nat>, id: Uuid)
    requires id in players
    ensures var after := ChargeCasts(players, casts, resolved).players;
            id in after && after[id].x == players[id].x && after[id].y == players[id].y
    decreases |casts|
  {
    if casts != [] {
      var c := casts[0];
      if c.caster !in players {
        ChargeKeepsPlaces(players, casts[1..], resolved, id);
      } else {
        var p := players[c.caster];
        var counted := Increment(resolved, c.caster);
        ChargeKeepsPlaces(if p.mp < 10 then players else players[c.caster := p.(mp := p.mp - 10)], casts[1..], counted, id);
      }
    }
  }

  lemma {:induction false} SpellsKeepPlaces(players: map<Uuid, Player>, spells: seq<Spell>, mapId: MapId, id: Uuid)
    requires id in players
    ensures var after := ApplySpells(players, spells, mapId).players;
            id in after && after[id].x == players[id].x && after[id].y == players[id].y
    decreases |spells|
  {
    if spells != [] {
      var c := spells[0];
      if c.target.Some? && c.target.value in players {
        var t := c.target.value;
        SpellsKeepPlaces(players[t := Hurt(players[t], SkillDamage(c.skillId))], spells[1..], mapId, id);
      } else {
        SpellsKeepPlaces(players, spells[1..], mapId, id);
      }
    }
  }

  lemma CombatKeepsPlace(s: Instance, id: Uuid)
    requires id in s.players
    ensures PlaceOf(CastPhase(AttackPhase(s)), id) == PlaceOf(s, id)
  {
    var a := AttackPhase(s);
    AttacksKeepPlaces(s.players, s.attacks, s.tick, id);
    ChargeKeepsPlaces(a.players, a.casts, a.resolved, id);
    var charge := ChargeCasts(a.players, a.casts, a.resolved);
    SpellsKeepPlaces(charge.players, charge.spells, a.mapId, id);
  }

  /** Over a whole tick, too: nothing but a session's own commands moves it. */
  lemma TickPlaces(s: Instance, batch: seq<Incoming>, o: Orders, t: Instance, id: Uuid)
    requires Stays(s) && OnlyNpcTexts(s) && IsTick(s, batch, o, t)
    ensures PlaceOf(t, id) == Stand(PlaceOf(s, id), batch, id)
  {
    var a := AfterInput(s, batch);
    InputPlaces(ScheduledPhase(Advance(s)), batch, id);
    AfterInputKeepsStays(s, batch);
    CombatKeepsKeys(MovementPhase(a, o.moves));
    if id in a.players {
      CombatKeepsPlace(MovementPhase(a, o.moves), id);
    }
  }

  // ------------------------------------------------------------------ the whole tick

  function AiEvents(tick: nat, someone: bool, npc: Uuid): seq<Event> {
    if tick % 100 == 0 && someone then [Say(npc, NpcAiTick)] else []
  }

  function AoiEvents(tick: nat, population: nat, views: seq<Uuid>): seq<Event> {
    if tick % 40 == 0 then Views(views, population) else []
  }

  lemma AiInOrder(s: Instance, npc: Uuid)
    ensures AiPhase(s, npc) == s.(outbound := s.outbound + AiEvents(s.tick, s.players.Keys != {}, npc))
  {
    assert s.outbound + [] == s.outbound && s.persist + [] == s.persist;
  }

  lemma AoiInOrder(s: Instance, views: seq<Uuid>)
    ensures AoiPhase(s, views) == s.(outbound := s.outbound + AoiEvents(s.tick, |s.players|, views))
  {
    assert s.outbound + [] == s.outbound && s.persist + [] == s.persist;
  }

  lemma ClosingInOrder(s: Instance, npc: Uuid, views: seq<Uuid>)
    ensures var t := InventoryPhase(AoiPhase(AiPhase(s, npc), views));
            && t.outbound == s.outbound + AiEvents(s.tick, s.players.Keys != {}, npc) + AoiEvents(s.tick, |s.players|, views)
            && t.persist == s.persist + InventoryOps(s.inventory, s.mapId)
  {
    AiInOrder(s, npc);
    AoiInOrder(AiPhase(s, npc), views);
    var b := AoiPhase(AiPhase(s, npc), views);
    assert b.outbound + [] == b.outbound;
  }

  lemma CombatInOrder(s: Instance)
    requires s.players.Keys == s.resolved.Keys
    ensures var f := CastPhase(AttackPhase(s));
            && f.outbound == s.outbound + CombatEvents(s) && f.persist == s.persist + CombatOps(s)
            && f.players.Keys == s.players.Keys && |f.players| == |s.players|
            && f.tick == s.tick && f.inventory == s.inventory && f.mapId == s.mapId
  {
    CombatEmits(s);
    CombatKeepsKeys(s);
    assert |CastPhase(AttackPhase(s)).players| == |CastPhase(AttackPhase(s)).players.Keys|;
  }

  lemma MovementInOrder(s: Instance, order: seq<Uuid>)
    requires forall i :: 0 <= i < |order| ==> order[i] in s.players
    ensures MovementPhase(s, order) == s.(outbound := s.outbound + Positions(s.players, order))
  {
    assert s.persist + [] == s.persist;
  }

  lemma InputInOrder(s: Instance, batch: seq<Incoming>)
    requires s.inventory == []
    ensures var a := AfterInput(s, batch);
            && a.outbound == s.outbound + Due(s) + Pick(AsReply, batch)
            && a.persist == s.persist + Saves(RegistryOf(s.players), batch, s.mapId)
            && a.inventory == Changes(RegistryOf(s.players), batch)
            && a.mapId == s.mapId && a.tick == NextTick(s.tick)
  {
    var ready := ScheduledPhase(Advance(s));
    assert ready.outbound == s.outbound + Due(s) by {
      assert s.outbound + [] == s.outbound;
    }
    assert ready.persist == s.persist by {
      assert s.persist + [] == s.persist;
    }
    InputReplies(ready, batch);
    InputSaves(ready, batch);
    InputChanges(ready, batch);
    InputSchedules(ready, batch);
    assert [] + Changes(RegistryOf(s.players), batch) == Changes(RegistryOf(s.players), batch);
  }

  /** The event stream of a tick, whole and in order: the texts due, the replies to the batch, every
      position once, the combat, the non-player text, the populations. */
  lemma TickEventsInOrder(s: Instance, batch: seq<Incoming>, o: Orders, t: Instance)
    requires Stays(s) && OnlyNpcTexts(s) && s.inventory == [] && IsTick(s, batch, o, t)
    ensures var a := AfterInput(s, batch); var tick := NextTick(s.tick);
            t.outbound == s.outbound + Due(s) + Pick(AsReply, batch) + Positions(a.players, o.moves) + CombatEvents(a)
                          + AiEvents(tick, a.players.Keys != {}, o.npc) + AoiEvents(tick, |a.players|, o.views)
  {
    var a := AfterInput(s, batch);
    AfterInputKeepsStays(s, batch);
    InputInOrder(s, batch);
    MovementInOrder(a, o.moves);
    var moved := MovementPhase(a, o.moves);
    CombatInOrder(moved);
    ClosingInOrder(CastPhase(AttackPhase(moved)), o.npc, o.views);
  }

  /** And what it asks to persist: the moves, the combat logs, the inventory changes. */
  lemma TickPersistsInOrder(s: Instance, batch: seq<Incoming>, o: Orders, t: Instance)
    requires Stays(s) && OnlyNpcTexts(s) && s.inventory == [] && IsTick(s, batch, o, t)
    ensures var r := RegistryOf(s.players);
            t.persist == s.persist + Saves(r, batch, s.mapId) + CombatOps(AfterInput(s, batch))
                         + InventoryOps(Changes(r, batch), s.mapId)
  {
    var a := AfterInput(s, batch);
    AfterInputKeepsStays(s, batch);
    InputInOrder(s, batch);
    MovementInOrder(a, o.moves);
    var moved := MovementPhase(a, o.moves);
    CombatInOrder(moved);
    ClosingInOrder(CastPhase(AttackPhase(moved)), o.npc, o.views);
  }

  lemma {:induction false} NothingPends(states: seq<Instance>, batches: seq<seq<Incoming>>, orders: seq<Orders>, i: nat)
    requires IsHistory(states, batches, orders) && i < |states|
    ensures states[i].inventory == []
    decreases i
  {
    if i > 0 {
      assert TickAt(states, batches, orders, i - 1);
      TickLeavesNothingPending(states[i - 1], batches[i - 1], orders[i - 1]);
    }
  }

  /** So it is with every tick of every run. */
  lemma EveryTickInOrder(states: seq<Instance>, batches: seq<seq<Incoming>>, orders: seq<Orders>, i: nat)
    requires IsHistory(states, batches, orders) && i < |batches|
    ensures TickAt(states, batches, orders, i)
    ensures var s, t, o := states[i], states[i + 1], orders[i];
            var a, tick := AfterInput(s, batches[i]), NextTick(s.tick);
            t.outbound == s.outbound + Due(s) + Pick(AsReply, batches[i]) + Positions(a.players, o.moves) + CombatEvents(a)
                          + AiEvents(tick, a.players.Keys != {}, o.npc) + AoiEvents(tick, |a.players|, o.views)
    ensures var s, r := states[i], RegistryOf(states[i].players);
            states[i + 1].persist == s.persist + Saves(r, batches[i], s.mapId) + CombatOps(AfterInput(s, batches[i]))
                                     + InventoryOps(Changes(r, batches[i]), s.mapId)
  {
    assert TickAt(states, batches, orders, i);
    HistoryKeepsStays(states, batches, orders, i);
    NothingPends(states, batches, orders, i);
    TickEventsInOrder(states[i], batches[i], orders[i], states[i + 1]);
    TickPersistsInOrder(states[i], batches[i], orders[i], states[i + 1]);
  }
}
