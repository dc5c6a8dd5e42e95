/** The map instance as the object it is: fields updated in place, one method per system, each
    proved to do what the phase of the same name in MapServer says. */
module MapInstances {
  import opened Wrappers
  import opened Commands
  import opened MapServer
  import opened MapLaws
  import opened MapRuns

  class MapInstance {
    const mapId: MapId
    const budget: nat

    var rx: seq<Incoming>
    var pending: seq<Incoming>
    var tick: nat
    var players: map<Uuid, Player>
    var scheduled: map<nat, seq<Event>>
    var attacks: seq<(Uuid, Uuid)>
    var casts: seq<Cast>
    var inventory: seq<(Uuid, Reason)>
    var outbound: seq<Event>
    var persist: seq<PersistOp>
    ghost var entered: map<Uuid, nat>
    ghost var resolved: map<Uuid, nat>

    ghost function View(): Instance
      reads this
    {
      Instance(mapId, tick, players, scheduled, attacks, casts, inventory, outbound, persist, entered, resolved)
    }

    /** Between ticks. */
    ghost predicate Valid()
      reads this
    {
      pending == [] && Stays(View()) && OnlyNpcTexts(View())
    }

    constructor (mapId: MapId, budget: nat)
      ensures Valid() && this.mapId == mapId && this.budget == budget
      ensures View() == NewInstance(mapId) && rx == []
    {
      this.mapId := mapId;
      this.budget := budget;
      rx, pending, tick, players, scheduled := [], [], 0, map[], map[];
      attacks, casts, inventory, outbound, persist := [], [], [], [], [];
      entered, resolved := map[], map[];
    }

    // ------------------------------------------------------------------- intake

    /** One tick's receive attempts; late[i] reaches the channel just before attempt i. */
    method DrainIncomingQueue(late: seq<seq<Incoming>>)
      requires |late| == budget
      modifies `rx, `pending
      ensures pending == old(pending) + Drain(old(rx), late).taken
      ensures rx == Drain(old(rx), late).rest
    {
      ghost var all := Drain(rx, late);
      var accepted := 0;
      while accepted < budget
        invariant 0 <= accepted <= budget
        invariant pending + Drain(rx, late[accepted..]).taken == old(pending) + all.taken
        invariant Drain(rx, late[accepted..]).rest == all.rest
      {
        assert late[accepted..][0] == late[accepted] && late[accepted..][1..] == late[accepted + 1..];
        rx := rx + late[accepted];
        if rx == [] {
          return;
        }
        Associative(pending, [rx[0]], Drain(rx[1..], late[accepted + 1..]).taken);
        pending := pending + [rx[0]];
        rx := rx[1..];
        accepted := accepted + 1;
      }
    }

    // ------------------------------------------------------------------ systems

    method ProcessScheduledEvents()
      modifies `scheduled, `outbound
      ensures View() == ScheduledPhase(old(View()))
    {
      if tick in scheduled {
        var events := scheduled[tick];
        scheduled := scheduled - {tick};
        var i := 0;
        while i < |events|
          invariant 0 <= i <= |events|
          invariant outbound == old(outbound) + events[..i] && scheduled == old(scheduled) - {tick}
        {
          outbound := outbound + [events[i]];
          i := i + 1;
        }
        assert events[..i] == events;
        assert persist + [] == persist;
      }
    }

    method SystemInput(commands: seq<Incoming>)
      modifies `players, `scheduled, `attacks, `casts, `inventory, `outbound, `persist, `entered, `resolved
      ensures View() == Input(old(View()), commands)
    {
      var i := 0;
      while i < |commands|
        invariant 0 <= i <= |commands|
        invariant Input(View(), commands[i..]) == Input(old(View()), commands)
      {
        assert commands[i..][0] == commands[i] && commands[i..][1..] == commands[i + 1..];
        TakeIn(commands[i]);
        i := i + 1;
      }
    }

    /** The body of the input loop: one command. */
    method TakeIn(incoming: Incoming)
      modifies `players, `scheduled, `attacks, `casts, `inventory, `outbound, `persist, `entered, `resolved
      ensures View() == InputOne(old(View()), incoming)
    {
      if IsSpeech(incoming.command) {
        Answer(incoming);
      } else if incoming.command.EnterWorld? || incoming.command.Logout? || incoming.command.Move? {
        Track(incoming);
      } else {
        SetAside(incoming);
      }
    }

    /** What the input phase answers or relays at once. */
    method Answer(incoming: Incoming)
      requires IsSpeech(incoming.command)
      modifies `outbound
      ensures View() == InputOne(old(View()), incoming)
    {
      var id := incoming.session;
      assert persist + [] == persist;
      match incoming.command {
        case Chat(message) =>
          outbound := outbound + [Say(id, Plain(message))];
        case Whisper(to, message) =>
          outbound := outbound + [Say(id, WhisperTo(to, message))];
        case GuildChat(message) =>
          outbound := outbound + [Say(id, GuildText(message))];
        case Heartbeat =>
          outbound := outbound + [Say(id, HeartbeatAck)];
      }
    }

    /** What the input phase does to the players themselves. */
    method Track(incoming: Incoming)
      requires incoming.command.EnterWorld? || incoming.command.Logout? || incoming.command.Move?
      modifies `players, `persist, `entered, `resolved
      ensures View() == InputOne(old(View()), incoming)
    {
      var id := incoming.session;
      assert outbound + [] == outbound;
      match incoming.command {
        case EnterWorld =>
          var character := incoming.character.GetOr(id);
          if id !in players {
            players := players[id := Player(character, 100, 100, 100, 100)];
            entered, resolved := entered[id := |outbound|], resolved[id := 0];
          }
          players := players[id := players[id].(character := character)];
        case Logout =>
          players := players - {id};
          entered, resolved := entered - {id}, resolved - {id};
        case Move(x, y, _) =>
          if id in players {
            players := players[id := players[id].(x := x, y := y)];
            persist := persist + [SavePosition(players[id].character, mapId, x, y)];
          }
      }
    }

    /** What the input phase leaves for a later phase or tick. */
    method SetAside(incoming: Incoming)
      requires !incoming.command.EnterWorld? && !incoming.command.Logout? && !incoming.command.Move?
      requires !IsSpeech(incoming.command)
      modifies `scheduled, `attacks, `casts, `inventory
      ensures View() == InputOne(old(View()), incoming)
    {
      var id := incoming.session;
      match incoming.command {
        case Attack(target) =>
          attacks := attacks + [(id, target)];
        case CastSkill(skill, target) =>
          casts := casts + [Cast(id, skill, target)];
        case PickupItem(_) =>
          RecordChange(id, PickedUp);
        case DropItem(slot, quantity) =>
          RecordChange(id, Dropped(slot, quantity));
        case UseItem(slot) =>
          RecordChange(id, Used(slot));
        case NpcInteraction(npc) =>
          var at := if tick + 1 < U64_END then tick + 1 else U64_END - 1;
          if at !in scheduled {
            scheduled := scheduled[at := []];
          }
          scheduled := scheduled[at := scheduled[at] + [Say(id, NpcText(npc))]];
        case _ =>
      }
    }

    method RecordChange(id: Uuid, reason: Reason)
      modifies `inventory
      ensures View() == Note(old(View()), id, reason)
    {
      var character := if id in players then players[id].character else id;
      inventory := inventory + [(character, reason)];
    }

    /** The order in which the player table yields its sessions. */
    method Sessions() returns (order: seq<Uuid>)
      ensures IsListing(order, players.Keys)
    {
      var left := players.Keys;
      order := [];
      while left != {}
        invariant left <= players.Keys && IsListing(order, players.Keys - left)
        decreases |left|
      {
        var id :| id in left;
        ListOneMore(order, players.Keys, left, id);
        order, left := order + [id], left - {id};
      }
      assert players.Keys - {} == players.Keys;
    }

    /** Reports every position once. */
    method SystemMovement() returns (order: seq<Uuid>)
      modifies `outbound
      ensures IsListing(order, players.Keys)
      ensures View() == MovementPhase(old(View()), order)
    {
      order := Sessions();
      ghost var positions := Positions(players, order);
      var i := 0;
      while i < |order|
        invariant 0 <= i <= |order| && outbound == old(outbound) + positions[..i]
      {
        outbound := outbound + [Position(order[i], players[order[i]].x, players[order[i]].y)];
        i := i + 1;
      }
      assert positions[..i] == positions && persist + [] == persist;
    }

    method SystemCombat()
      modifies `players, `attacks, `casts, `outbound, `persist, `resolved
      ensures View() == CastPhase(AttackPhase(old(View())))
    {
      var hits := LandAttacks();
      ReportHits(hits);
      assert outbound == old(outbound) + HitEvents(hits) && View() == AttackPhase(old(View()));
      ghost var fought := View();
      var spells := ChargeCasters();
      assert View() == ChargePhase(fought);
      CastSpells(spells);
    }

    /** Every pending attack whose two sides are present, applied in order. */
    method LandAttacks() returns (hits: seq<Hit>)
      modifies `players, `attacks
      ensures (var fight := ResolveAttacks(old(players), old(attacks), tick);
               hits == fight.hits && players == fight.players && attacks == [])
    {
      hits := [];
      var drained := attacks;
      attacks := [];
      ghost var fight := ResolveAttacks(players, drained, tick);
      var i := 0;
      while i < |drained|
        invariant 0 <= i <= |drained|
        invariant hits + ResolveAttacks(players, drained[i..], tick).hits == fight.hits
        invariant ResolveAttacks(players, drained[i..], tick).players == fight.players && attacks == []
      {
        assert drained[i..][0] == drained[i] && drained[i..][1..] == drained[i + 1..];
        var (attacker, defender) := drained[i];
        if attacker in players && defender in players {
          var damage := 5 + tick % 4;
          var hurt := players[defender].(hp := Max(players[defender].hp - damage, 0));
          var hit := Hit(attacker, defender, players[attacker].character, hurt.character, damage, hurt.hp == 0);
          players := players[defender := hurt];
          Associative(hits, [hit], ResolveAttacks(players, drained[i + 1..], tick).hits);
          hits := hits + [hit];
        }
        i := i + 1;
      }
    }

    method ReportHits(hits: seq<Hit>)
      modifies `outbound, `persist
      ensures outbound == old(outbound) + HitEvents(hits)
      ensures persist == old(persist) + HitOps(hits, mapId)
    {
      var i := 0;
      while i < |hits|
        invariant 0 <= i <= |hits|
        invariant outbound + HitEvents(hits[i..]) == old(outbound) + HitEvents(hits)
        invariant persist + HitOps(hits[i..], mapId) == old(persist) + HitOps(hits, mapId)
      {
        assert hits[i..][0] == hits[i] && hits[i..][1..] == hits[i + 1..];
        ghost var rest := HitEvents(hits[i + 1..]);
        var h := hits[i];
        Associative(outbound, [CombatResult(h.attacker, h.defender, h.damage)],
                    (if h.defeated then [Say(h.defender, Defeated)] else []) + rest);
        outbound := outbound + [CombatResult(h.attacker, h.defender, h.damage)];
        Associative(persist, [SaveCombatLog(h.attackerCharacter, h.defenderCharacter, mapId, h.damage)],
                    HitOps(hits[i + 1..], mapId));
        persist := persist + [SaveCombatLog(h.attackerCharacter, h.defenderCharacter, mapId, h.damage)];
        if h.defeated {
          Associative(outbound, [Say(h.defender, Defeated)], rest);
          outbound := outbound + [Say(h.defender, Defeated)];
        }
        i := i + 1;
      }
    }

    /** Takes the cost of every pending cast its caster can pay for, and refuses the others. */
    method ChargeCasters() returns (spells: seq<Spell>)
      modifies `players, `casts, `outbound, `resolved
      ensures (var charge := ChargeCasts(old(players), old(casts), old(resolved));
               && spells == charge.spells && players == charge.players && resolved == charge.resolved
               && casts == [] && outbound == old(outbound) + charge.refusals)
    {
      spells := [];
      var drained := casts;
      casts := [];
      ghost var charge := ChargeCasts(players, drained, resolved);
      var i := 0;
      while i < |drained|
        invariant 0 <= i <= |drained| && casts == []
        invariant (var later := ChargeCasts(players, drained[i..], resolved);
                   && spells + later.spells == charge.spells && later.players == charge.players
                   && later.resolved == charge.resolved
                   && outbound + later.refusals == old(outbound) + charge.refusals)
      {
        assert drained[i..][0] == drained[i] && drained[i..][1..] == drained[i + 1..];
        var c := drained[i];
        if c.caster in players {
          var p := players[c.caster];
          resolved := Increment(resolved, c.caster);
          if p.mp < 10 {
            Associative(outbound, [Say(c.caster, NotEnoughMana)],
                        ChargeCasts(players, drained[i + 1..], resolved).refusals);
            outbound := outbound + [Say(c.caster, NotEnoughMana)];
          } else {
            players := players[c.caster := p.(mp := p.mp - 10)];
            var spell := Spell(c.caster, p.character, c.skillId, c.target);
            Associative(spells, [spell], ChargeCasts(players, drained[i + 1..], resolved).spells);
            spells := spells + [spell];
          }
        }
        i := i + 1;
      }
    }

    method CastSpells(spells: seq<Spell>)
      modifies `players, `outbound, `persist
      ensures View() == SpellPhase(old(View()), spells)
    {
      ghost var effect := ApplySpells(players, spells, mapId);
      var i := 0;
      while i < |spells|
        invariant 0 <= i <= |spells|
        invariant (var later := ApplySpells(players, spells[i..], mapId);
                   && later.players == effect.players
                   && outbound + later.events == old(outbound) + effect.events
                   && persist + later.ops == old(persist) + effect.ops)
      {
        assert spells[i..][0] == spells[i] && spells[i..][1..] == spells[i + 1..];
        ghost var before := players;
        var c := spells[i];
        if c.target.None? {
          SendText(c.caster, SkillCast(c.skillId), ApplySpells(players, spells[i + 1..], mapId).events);
        } else if c.target.value in players {
          var target := c.target.value;
          var character := players[target].character;
          var damage := SkillDamage(c.skillId);
          players := players[target := Hurt(players[target], damage)];
          ghost var later := ApplySpells(players, spells[i + 1..], mapId);
          Associative(outbound, [CombatResult(c.caster, target, damage)], later.events);
          Associative(persist, [SaveCombatLog(c.character, character, mapId, damage)], later.ops);
          outbound := outbound + [CombatResult(c.caster, target, damage)];
          persist := persist + [SaveCombatLog(c.character, character, mapId, damage)];
        }
        i := i + 1;
      }
    }

    method SendText(to: Uuid, text: Text, ghost rest: seq<Event>)
      modifies `outbound
      ensures outbound == old(outbound) + [Say(to, text)]
      ensures outbound + rest == old(outbound) + ([Say(to, text)] + rest)
    {
      outbound := outbound + [Say(to, text)];
    }

    /** Every hundredth tick, a text to whichever player the table yields first. */
    method SystemAi() returns (ghost npc: Uuid)
      modifies `outbound
      ensures players.Keys != {} ==> npc in players
      ensures View() == AiPhase(old(View()), npc)
    {
      npc := 0;
      assert persist + [] == persist;
      if players.Keys != {} {
        var first :| first in players;
        npc := first;
        if tick % 100 == 0 {
          outbound := outbound + [Say(first, NpcAiTick)];
        }
      }
    }

    /** Every fortieth tick, the population to every player. */
    method SystemAoi() returns (order: seq<Uuid>)
      modifies `outbound
      ensures IsListing(order, players.Keys)
      ensures View() == AoiPhase(old(View()), order)
    {
      order := Sessions();
      if tick % 40 != 0 {
        return;
      }
      var population := |players|;
      ghost var views := Views(order, population);
      var i := 0;
      while i < |order|
        invariant 0 <= i <= |order| && outbound == old(outbound) + views[..i]
      {
        outbound := outbound + [Say(order[i], AoiUpdate(population))];
        i := i + 1;
      }
      assert views[..i] == views && persist + [] == persist;
    }

    method SystemInventory()
      modifies `inventory, `persist
      ensures View() == InventoryPhase(old(View()))
    {
      var drained := inventory;
      inventory := [];
      var i := 0;
      while i < |drained|
        invariant 0 <= i <= |drained|
        invariant persist == old(persist) + InventoryOps(drained[..i], mapId) && inventory == []
      {
        persist := persist + [SaveInventory(drained[i].0, mapId, drained[i].1)];
        i := i + 1;
      }
      assert drained[..i] == drained;
      assert outbound + [] == outbound;
    }

    // ----------------------------------------------------------------- one tick

    /** Every system once, in their fixed order, over all that is pending. */
    method ProcessTick() returns (ghost orders: Orders, ghost ready: Instance, ghost moved: Instance, ghost fought: Instance)
      modifies `pending, `players, `scheduled, `attacks, `casts, `inventory, `outbound, `persist, `entered, `resolved
      ensures pending == []
      ensures ready == Input(ScheduledPhase(old(View())), old(pending))
      ensures IsListing(orders.moves, ready.players.Keys) && moved == MovementPhase(ready, orders.moves)
      ensures fought == CastPhase(AttackPhase(moved))
      ensures fought.players.Keys != {} ==> orders.npc in fought.players
      ensures IsListing(orders.views, fought.players.Keys)
      ensures View() == InventoryPhase(AoiPhase(AiPhase(fought, orders.npc), orders.views))
    {
      ProcessScheduledEvents();
      var commands := pending;
      pending := [];
      SystemInput(commands);
      ready := View();
      ghost var moves := SystemMovement();
      moved := View();
      SystemCombat();
      fought := View();
      ghost var npc := SystemAi();
      ghost var views := SystemAoi();
      SystemInventory();
      orders := Orders(moves, npc, views);
    }

    /** One turn of the instance's loop: the tick index, the intake, then every system. */
    method RunTick(late: seq<seq<Incoming>>) returns (ghost batch: seq<Incoming>, ghost orders: Orders)
      requires Valid() && |late| == budget
      modifies this
      ensures Valid() && batch == Drain(old(rx), late).taken && rx == Drain(old(rx), late).rest
      ensures IsTick(old(View()), batch, orders, View())
    {
      ghost var was := View();
      tick := if tick + 1 < U64_END then tick + 1 else 0;
      DrainIncomingQueue(late);
      batch := pending;
      assert View() == Advance(was);
      ghost var ready, moved, fought;
      orders, ready, moved, fought := ProcessTick();
      PhasesMakeATick(was, batch, orders, ready, moved, fought, View());
    }

    /** The instance's loop from its creation, over any series of ticks: its states are a history
        of the batches the channel serves. */
    method Run(ticks: seq<Arrivals>) returns (ghost states: seq<Instance>, ghost orders: seq<Orders>)
      requires Valid() && View() == NewInstance(mapId)
      requires forall i :: 0 <= i < |ticks| ==> |ticks[i].during| == budget
      modifies this
      ensures IsHistory(states, Serve(old(rx), ticks).batches, orders)
      ensures |states| == |ticks| + 1 && states[|ticks|] == View()
      ensures rx == Serve(old(rx), ticks).rest
    {
      ghost var all := Serve(rx, ticks);
      ghost var batches: seq<seq<Incoming>> := [];
      states, orders := [View()], [];
      var i := 0;
      while i < |ticks|
        invariant 0 <= i <= |ticks| == |batches| + (|ticks| - i)
        invariant Valid() && IsHistory(states, batches, orders) && states[i] == View()
        invariant batches + Serve(rx, ticks[i..]).batches == all.batches
        invariant Serve(rx, ticks[i..]).rest == all.rest
      {
        assert ticks[i..][0] == ticks[i] && ticks[i..][1..] == ticks[i + 1..];
        rx := rx + ticks[i].before;
        assert View() == states[i];
        ghost var batch, order := RunTick(ticks[i].during);
        Associative(batches, [batch], Serve(rx, ticks[i + 1..]).batches);
        HistorySnoc(states, batches, orders, batch, order, View());
        states, batches, orders := states + [View()], batches + [batch], orders + [order];
        i := i + 1;
      }
      assert batches + [] == batches;
    }
  }

  lemma ListOneMore(order: seq<Uuid>, keys: set<Uuid>, left: set<Uuid>, id: Uuid)
    requires IsListing(order, keys - left) && id in left && left <= keys
    ensures IsListing(order + [id], keys - (left - {id}))
  {
    assert keys - (left - {id}) == (keys - left) + {id};
  }

  /** The phases one after the other are a tick; the players listed after the combat are those
      the input left. */
  lemma PhasesMakeATick(s: Instance, batch: seq<Incoming>, o: Orders, ready: Instance, moved: Instance, fought: Instance, t: Instance)
    requires Stays(s) && OnlyNpcTexts(s)
    requires ready == AfterInput(s, batch) && IsListing(o.moves, ready.players.Keys)
    requires moved == MovementPhase(ready, o.moves) && fought == CastPhase(AttackPhase(moved))
    requires (fought.players.Keys != {} ==> o.npc in fought.players) && IsListing(o.views, fought.players.Keys)
    requires t == InventoryPhase(AoiPhase(AiPhase(fought, o.npc), o.views))
    ensures IsTick(s, batch, o, t) && Stays(t) && OnlyNpcTexts(t)
  {
    AfterInputKeepsStays(s, batch);
    CombatKeepsKeys(moved);
    TickKeepsStays(s, batch, o);
  }
}
