/** Map instances over whole runs: command service, combat, scheduled texts and rosters. */
module MapRuns {
  import opened Wrappers
  import opened Commands
  import opened MapServer
  import opened MapLaws

  // ------------------------------------------------------- from channel to tick

  /** One tick's intake: what it took, what it left in the channel, and what arrived meanwhile. */
  datatype Intake = Intake(taken: seq<Incoming>, rest: seq<Incoming>, arrived: seq<Incoming>)

  /** Up to |late| receive attempts; late[i] is what reaches the channel just before attempt i. */
  function Drain(rx: seq<Incoming>, late: seq<seq<Incoming>>): Intake
    decreases |late|
  {
    if late == [] then Intake([], rx, [])
    else
      var channel := rx + late[0];
      if channel == [] then Intake([], [], [])
      else
        var later := Drain(channel[1..], late[1..]);
        Intake([channel[0]] + later.taken, later.rest, late[0] + later.arrived)
  }

  lemma {:induction false} DrainConserves(rx: seq<Incoming>, late: seq<seq<Incoming>>)
    ensures var d := Drain(rx, late);
            && d.taken + d.rest == rx + d.arrived
            && Min(|late|, |rx|) <= |d.taken| <= |late|
    decreases |late|
  {
    if late == [] {
      assert [] + rx == rx + [];
    } else {
      var channel := rx + late[0];
      if channel != [] {
        DrainConserves(channel[1..], late[1..]);
        var later := Drain(channel[1..], late[1..]);
        assert [channel[0]] + later.taken + later.rest == [channel[0]] + (channel[1..] + later.arrived);
        assert [channel[0]] + (channel[1..] + later.arrived) == channel + later.arrived;
        Associative(rx, late[0], later.arrived);
      }
    }
  }

  /** What reaches the channel before a tick, and during its receive attempts. */
  datatype Arrivals = Arrivals(before: seq<Incoming>, during: seq<seq<Incoming>>)

  /** The batches a series of ticks processes, with what is left and what came in all. */
  datatype Service = Service(batches: seq<seq<Incoming>>, rest: seq<Incoming>, arrived: seq<Incoming>)

  function Serve(rx: seq<Incoming>, ticks: seq<Arrivals>): Service
    decreases |ticks|
  {
    if ticks == [] then Service([], rx, [])
    else
      var now := Drain(rx + ticks[0].before, ticks[0].during);
      var later := Serve(now.rest, ticks[1..]);
      Service([now.taken] + later.batches, later.rest, ticks[0].before + now.arrived + later.arrived)
  }

  /** Between the channel and the ticks nothing is lost, duplicated or reordered. */
  lemma {:induction false} ServeConserves(rx: seq<Incoming>, ticks: seq<Arrivals>)
    ensures var v := Serve(rx, ticks);
            |v.batches| == |ticks| && Flatten(v.batches) + v.rest == rx + v.arrived
    decreases |ticks|
  {
    if ticks == [] {
      assert [] + rx == rx + [];
    } else {
      var now := Drain(rx + ticks[0].before, ticks[0].during);
      var later := Serve(now.rest, ticks[1..]);
      DrainConserves(rx + ticks[0].before, ticks[0].during);
      ServeConserves(now.rest, ticks[1..]);
      assert ([now.taken] + later.batches)[1..] == later.batches;
      Associative(now.taken, Flatten(later.batches), later.rest);
      Associative(now.taken, now.rest, later.arrived);
      Associative(rx + ticks[0].before, now.arrived, later.arrived);
      assert rx + ticks[0].before + (now.arrived + later.arrived)
          == rx + (ticks[0].before + now.arrived + later.arrived);
    }
  }

  lemma {:induction false} ServedAt(rx: seq<Incoming>, ticks: seq<Arrivals>, budget: nat, t: nat, ahead: nat, j: nat)
    requires j < budget && t < |ticks| && ahead == t * budget && ahead + j < |rx|
    requires forall i :: 0 <= i < |ticks| ==> |ticks[i].during| == budget
    ensures var v := Serve(rx, ticks);
            |v.batches| == |ticks| && j < |v.batches[t]| && v.batches[t][j] == rx[ahead + j]
    decreases |ticks|
  {
    var channel := rx + ticks[0].before;
    var now := Drain(channel, ticks[0].during);
    DrainConserves(channel, ticks[0].during);
    ServeConserves(now.rest, ticks[1..]);
    Associative(rx, ticks[0].before, now.arrived);
    TakenInOrder(rx, ticks[0].before + now.arrived, now.taken, now.rest, ahead + j);
    if t > 0 {
      OneBudgetLess(t, budget);
      assert |now.taken| == budget;
      ServedAt(now.rest, ticks[1..], budget, t - 1, ahead - budget, j);
    }
  }

  lemma OneBudgetLess(t: nat, budget: nat)
    requires t > 0
    ensures t * budget - budget == (t - 1) * budget >= 0
  {
  }

  lemma TakenInOrder(rx: seq<Incoming>, more: seq<Incoming>, taken: seq<Incoming>, rest: seq<Incoming>, k: nat)
    requires rx + more == taken + rest && k < |rx|
    ensures k < |taken| ==> taken[k] == rx[k]
    ensures k >= |taken| ==> k - |taken| < |rest| && rest[k - |taken|] == rx[k]
  {
    assert (rx + more)[k] == rx[k] && |rx + more| == |taken + rest|;
    assert (taken + rest)[k] == rx[k];
  }

  /** With a budget of b per tick, a command with k others ahead of it is the (k mod b)-th of the
      k/b-th batch from now, whatever arrives later. */
  lemma ServiceBound(rx: seq<Incoming>, ticks: seq<Arrivals>, budget: nat, k: nat)
    requires budget >= 1 && k < |rx| && k / budget < |ticks|
    requires forall i :: 0 <= i < |ticks| ==> |ticks[i].during| == budget
    ensures var v := Serve(rx, ticks);
            && |v.batches| == |ticks|
            && k % budget < |v.batches[k / budget]| && v.batches[k / budget][k % budget] == rx[k]
  {
    var t, j := k / budget, k % budget;
    assert k == t * budget + j;
    ServedAt(rx, ticks, budget, t, t * budget, j);
  }

  // --------------------------------------------------------------------- rosters

  function KeysAfterOne(keys: set<Uuid>, c: Incoming): set<Uuid> {
    if c.command.EnterWorld? then keys + {c.session}
    else if c.command.Logout? then keys - {c.session}
    else keys
  }

  /** Who is online after a batch. */
  function KeysAfter(keys: set<Uuid>, batch: seq<Incoming>): set<Uuid>
    decreases |batch|
  {
    if batch == [] then keys else KeysAfter(KeysAfterOne(keys, batch[0]), batch[1..])
  }

  lemma {:induction false} KeysAfterAppend(keys: set<Uuid>, a: seq<Incoming>, b: seq<Incoming>)
    ensures KeysAfter(keys, a + b) == KeysAfter(KeysAfter(keys, a), b)
    decreases |a|
  {
    if a == [] {
      assert a + b == b;
    } else {
      assert (a + b)[1..] == a[1..] + b;
      KeysAfterAppend(KeysAfterOne(keys, a[0]), a[1..], b);
    }
  }

  lemma InputOneKeys(s: Instance, c: Incoming)
    ensures InputOne(s, c).players.Keys == KeysAfterOne(s.players.Keys, c)
  {
    if !c.command.EnterWorld? && !c.command.Logout? && !c.command.Move? {
      OthersKeepPlayers(s, c);
    }
  }

  lemma {:induction false} InputKeys(s: Instance, batch: seq<Incoming>)
    ensures Input(s, batch).players.Keys == KeysAfter(s.players.Keys, batch)
    decreases |batch|
  {
    if batch != [] {
      InputOneKeys(s, batch[0]);
      InputKeys(InputOne(s, batch[0]), batch[1..]);
    }
  }

  lemma CombatKeepsKeys(s: Instance)
    requires s.players.Keys == s.resolved.Keys
    ensures CastPhase(AttackPhase(s)).players.Keys == s.players.Keys
  {
    var a := AttackPhase(s);
    KeysAfterAttacks(s.players, s.attacks, s.tick);
    KeysAfterCharge(a.players, a.casts, a.resolved);
    var charge := ChargeCasts(a.players, a.casts, a.resolved);
    KeysAfterSpells(charge.players, charge.spells, a.mapId);
  }

  /** A tick changes the roster exactly as its batch says. */
  lemma TickKeys(s: Instance, batch: seq<Incoming>, o: Orders)
    requires Stays(s) && OnlyNpcTexts(s) && ValidOrders(o, AfterInput(s, batch).players.Keys)
    ensures Tick(s, batch, o).players.Keys == KeysAfter(s.players.Keys, batch)
  {
    InputKeys(ScheduledPhase(Advance(s)), batch);
    AfterInputKeepsStays(s, batch);
    CombatKeepsKeys(MovementPhase(AfterInput(s, batch), o.moves));
  }

  // ------------------------------------------------------------- hp, mp over a run

  function NewInstance(mapId: MapId): Instance {
    Instance(mapId, 0, map[], map[], [], [], [], [], [], map[], map[])
  }

  /** The states of an instance from its creation, tick by tick. */
  ghost predicate IsHistory(states: seq<Instance>, batches: seq<seq<Incoming>>, orders: seq<Orders>) {
    && |batches| == |orders| && |states| == |batches| + 1
    && states[0] == NewInstance(states[0].mapId)
    && forall i :: 0 <= i < |batches| ==> TickAt(states, batches, orders, i)
  }

  ghost predicate TickAt(states: seq<Instance>, batches: seq<seq<Incoming>>, orders: seq<Orders>, i: nat) {
    && i < |batches| && i < |orders| && i + 1 < |states|
    && IsTick(states[i], batches[i], orders[i], states[i + 1])
  }

  ghost predicate IsTick(s: Instance, batch: seq<Incoming>, o: Orders, t: Instance) {
    ValidOrders(o, AfterInput(s, batch).players.Keys) && t == Tick(s, batch, o)
  }

  lemma HistorySnoc(states: seq<Instance>, batches: seq<seq<Incoming>>, orders: seq<Orders>,
                    batch: seq<Incoming>, order: Orders, t: Instance)
    requires IsHistory(states, batches, orders) && IsTick(states[|batches|], batch, order, t)
    ensures IsHistory(states + [t], batches + [batch], orders + [order])
  {
    forall i | 0 <= i < |batches|
      ensures TickAt(states + [t], batches + [batch], orders + [order], i)
    {
      assert TickAt(states, batches, orders, i);
    }
  }

  lemma {:induction false} HistoryKeepsStays(states: seq<Instance>, batches: seq<seq<Incoming>>, orders: seq<Orders>, i: nat)
    requires IsHistory(states, batches, orders) && i < |states|
    ensures Stays(states[i]) && OnlyNpcTexts(states[i])
    decreases i
  {
    if i > 0 {
      HistoryKeepsStays(states, batches, orders, i - 1);
      assert TickAt(states, batches, orders, i - 1);
      StaysAfterTick(states[i - 1], batches[i - 1], orders[i - 1], states[i]);
    }
  }

  lemma StaysAfterTick(s: Instance, batch: seq<Incoming>, o: Orders, t: Instance)
    requires Stays(s) && OnlyNpcTexts(s) && IsTick(s, batch, o, t)
    ensures Stays(t) && OnlyNpcTexts(t)
  {
    TickKeepsStays(s, batch, o);
  }

  /** In every run an online session's hp is 100 less the damage its CombatResult events report
      since it entered, floored at 0; its mp is 100 less 10 for each of the first ten casts it has
      had resolved since then, and each later one was answered "not enough mana". */
  lemma HealthAndManaFromEvents(states: seq<Instance>, batches: seq<seq<Incoming>>, orders: seq<Orders>, i: nat, id: Uuid)
    requires IsHistory(states, batches, orders) && i < |states| && id in states[i].players
    ensures id in states[i].entered && id in states[i].resolved && states[i].entered[id] <= |states[i].outbound|
    ensures var s := states[i];
            && s.players[id].hp == Max(0, 100 - Taken(Since(s, id), id))
            && s.players[id].mp == 100 - 10 * Min(10, s.resolved[id])
            && Refused(Since(s, id), id) == Max(0, s.resolved[id] as int - 10)
  {
    HistoryKeepsStays(states, batches, orders, i);
    assert StayHolds(states[i], id);
  }

  // --------------------------------------------------------- the stream of a tick

  /** Events no law reads: neither blows, refusals nor texts of non-player characters. */
  ghost predicate Quiet(events: seq<Event>) {
    Harmless(events) && forall i :: 0 <= i < |events| ==> AsNpcText(events[i]) == None
  }

  lemma {:induction false} QuietPicksNothing(events: seq<Event>)
    requires Quiet(events)
    ensures Pick(AsBlow, events) == [] && Pick(AsNpcText, events) == []
    decreases |events|
  {
    if events != [] {
      QuietPicksNothing(events[1..]);
    }
  }

  lemma {:induction false} InputSays(s: Instance, batch: seq<Incoming>) returns (said: seq<Event>)
    ensures Input(s, batch).outbound == s.outbound + said && Quiet(said)
    decreases |batch|
  {
    if batch == [] {
      said := [];
      assert s.outbound + [] == s.outbound;
    } else {
      var now := InputOneEmits(s, batch[0]);
      var later := InputSays(InputOne(s, batch[0]), batch[1..]);
      said := now + later;
      Associative(s.outbound, now, later);
    }
  }

  /** Texts due in the coming tick. */
  function Due(s: Instance): seq<Event> {
    var next := NextTick(s.tick);
    if next in s.scheduled then s.scheduled[next] else []
  }

  lemma AfterInputSays(s: Instance, batch: seq<Incoming>) returns (said: seq<Event>)
    ensures AfterInput(s, batch).outbound == s.outbound + Due(s) + said && Quiet(said)
  {
    said := InputSays(ScheduledPhase(Advance(s)), batch);
    assert s.outbound + [] == s.outbound;
  }

  // ------------------------------------------------------------ combat in a tick

  /** What the two combat phases put on the event stream, and what they ask to persist. */
  function CombatEvents(s: Instance): seq<Event> {
    var fight := ResolveAttacks(s.players, s.attacks, s.tick);
    var charge := ChargeCasts(fight.players, s.casts, s.resolved);
    HitEvents(fight.hits) + charge.refusals + ApplySpells(charge.players, charge.spells, s.mapId).events
  }

  function CombatOps(s: Instance): seq<PersistOp> {
    var fight := ResolveAttacks(s.players, s.attacks, s.tick);
    var charge := ChargeCasts(fight.players, s.casts, s.resolved);
    HitOps(fight.hits, s.mapId) + ApplySpells(charge.players, charge.spells, s.mapId).ops
  }

  lemma CombatEmits(s: Instance)
    ensures CastPhase(AttackPhase(s)).outbound == s.outbound + CombatEvents(s)
    ensures CastPhase(AttackPhase(s)).persist == s.persist + CombatOps(s)
  {
    var fight := ResolveAttacks(s.players, s.attacks, s.tick);
    var charge := ChargeCasts(fight.players, s.casts, s.resolved);
    var effect := ApplySpells(charge.players, charge.spells, s.mapId);
    Associative(s.outbound, HitEvents(fight.hits), charge.refusals);
    Associative(s.outbound, HitEvents(fight.hits) + charge.refusals, effect.events);
    var ops := s.persist + HitOps(fight.hits, s.mapId);
    assert ops + [] == ops;
    Associative(s.persist, HitOps(fight.hits, s.mapId), effect.ops);
  }

  /** Each blow has its log, in order, under the characters of the two sessions. */
  ghost predicate Logged(blows: seq<Blow>, logs: seq<Blow>, who: map<Uuid, Player>) {
    && |blows| == |logs|
    && forall i :: 0 <= i < |blows| ==>
         && blows[i].0 in who && blows[i].1 in who
         && logs[i] == (who[blows[i].0].character, who[blows[i].1].character, blows[i].2)
  }

  lemma LoggedConcat(b1: seq<Blow>, l1: seq<Blow>, b2: seq<Blow>, l2: seq<Blow>, who: map<Uuid, Player>)
    requires Logged(b1, l1, who) && Logged(b2, l2, who)
    ensures Logged(b1 + b2, l1 + l2, who)
  {
  }

  /** Same sessions, same characters. */
  ghost predicate SameCharacters(a: map<Uuid, Player>, b: map<Uuid, Player>) {
    a.Keys == b.Keys && forall id :: id in a ==> a[id].character == b[id].character
  }

  lemma {:induction false} HitsAreLogged(players: map<Uuid, Player>, attacks: seq<(Uuid, Uuid)>, tick: nat, who: map<Uuid, Player>, mapId: MapId)
    requires SameCharacters(players, who)
    ensures var fight := ResolveAttacks(players, attacks, tick);
            && Logged(Blows(fight.hits), Pick(AsLog, HitOps(fight.hits, mapId)), who)
            && SameCharacters(fight.players, who)
    decreases |attacks|
  {
    if attacks != [] {
      var (a, d) := attacks[0];
      if a in players && d in players {
        var after := players[d := Hurt(players[d], AttackDamage(tick))];
        HitsAreLogged(after, attacks[1..], tick, who, mapId);
        HitLogHead(ResolveAttacks(players, attacks, tick).hits, mapId);
      } else {
        HitsAreLogged(players, attacks[1..], tick, who, mapId);
      }
    }
  }

  lemma HitLogHead(hits: seq<Hit>, mapId: MapId)
    requires hits != []
    ensures var h := hits[0];
            && Blows(hits) == [(h.attacker, h.defender, h.damage)] + Blows(hits[1..])
            && Pick(AsLog, HitOps(hits, mapId))
               == [(h.attackerCharacter, h.defenderCharacter, h.damage)] + Pick(AsLog, HitOps(hits[1..], mapId))
  {
    var h := hits[0];
    var op := SaveCombatLog(h.attackerCharacter, h.defenderCharacter, mapId, h.damage);
    assert ([op] + HitOps(hits[1..], mapId))[1..] == HitOps(hits[1..], mapId);
  }

  lemma {:induction false} ChargeKeepsCharacters(players: map<Uuid, Player>, casts: seq<Cast>, resolved: map<Uuid, nat>, who: map<Uuid, Player>)
    requires SameCharacters(players, who)
    ensures var c := ChargeCasts(players, casts, resolved);
            && SameCharacters(c.players, who) && Pick(AsBlow, c.refusals) == [] && Pick(AsNpcText, c.refusals) == []
            && forall i :: 0 <= i < |c.spells| ==>
                 c.spells[i].caster in who && c.spells[i].character == who[c.spells[i].caster].character
    decreases |casts|
  {
    if casts != [] {
      var c := casts[0];
      if c.caster !in players {
        ChargeKeepsCharacters(players, casts[1..], resolved, who);
      } else {
        var p, counted := players[c.caster], Increment(resolved, c.caster);
        if p.mp < 10 {
          ChargeKeepsCharacters(players, casts[1..], counted, who);
          var later := ChargeCasts(players, casts[1..], counted).refusals;
          assert ([Say(c.caster, NotEnoughMana)] + later)[1..] == later;
        } else {
          ChargeKeepsCharacters(players[c.caster := p.(mp := p.mp - 10)], casts[1..], counted, who);
        }
      }
    }
  }

  lemma {:induction false} SpellsAreLogged(players: map<Uuid, Player>, spells: seq<Spell>, who: map<Uuid, Player>, mapId: MapId)
    requires SameCharacters(players, who)
    requires forall i :: 0 <= i < |spells| ==>
               spells[i].caster in who && spells[i].character == who[spells[i].caster].character
    ensures var e := ApplySpells(players, spells, mapId);
            Logged(Pick(AsBlow, e.events), Pick(AsLog, e.ops), who) && Pick(AsNpcText, e.events) == []
    decreases |spells|
  {
    if spells != [] {
      var c := spells[0];
      if c.target.None? {
        SpellsAreLogged(players, spells[1..], who, mapId);
        var later := ApplySpells(players, spells[1..], mapId);
        assert ([Say(c.caster, SkillCast(c.skillId))] + later.events)[1..] == later.events;
      } else if c.target.value !in players {
        SpellsAreLogged(players, spells[1..], who, mapId);
      } else {
        var t, damage := c.target.value, SkillDamage(c.skillId);
        var after := players[t := Hurt(players[t], damage)];
        SpellsAreLogged(after, spells[1..], who, mapId);
        var later := ApplySpells(after, spells[1..], mapId);
        assert ([CombatResult(c.caster, t, damage)] + later.events)[1..] == later.events;
        assert ([SaveCombatLog(c.character, players[t].character, mapId, damage)] + later.ops)[1..] == later.ops;
      }
    }
  }

  lemma CombatIsLogged(s: Instance)
    ensures Logged(Pick(AsBlow, CombatEvents(s)), Pick(AsLog, CombatOps(s)), s.players)
    ensures Pick(AsNpcText, CombatEvents(s)) == []
    ensures Blows(ResolveAttacks(s.players, s.attacks, s.tick).hits) <= Pick(AsBlow, CombatEvents(s))
  {
    var fight := ResolveAttacks(s.players, s.attacks, s.tick);
    var charge := ChargeCasts(fight.players, s.casts, s.resolved);
    var effect := ApplySpells(charge.players, charge.spells, s.mapId);
    HitsAreLogged(s.players, s.attacks, s.tick, s.players, s.mapId);
    ChargeKeepsCharacters(fight.players, s.casts, s.resolved, s.players);
    SpellsAreLogged(charge.players, charge.spells, s.players, s.mapId);
    HitEventsShowBlows(fight.hits);
    PickAppend(AsBlow, HitEvents(fight.hits) + charge.refusals, effect.events);
    PickAppend(AsBlow, HitEvents(fight.hits), charge.refusals);
    PickAppend(AsNpcText, HitEvents(fight.hits) + charge.refusals, effect.events);
    PickAppend(AsNpcText, HitEvents(fight.hits), charge.refusals);
    PickAppend(AsLog, HitOps(fight.hits, s.mapId), effect.ops);
    LoggedConcat(Blows(fight.hits), Pick(AsLog, HitOps(fight.hits, s.mapId)),
                 Pick(AsBlow, effect.events), Pick(AsLog, effect.ops), s.players);
    assert Blows(fight.hits) + [] == Blows(fight.hits);
  }

  // --------------------------------------------------- attacks, wherever they stood

  function AsAttack(c: Incoming): Option<(Uuid, Uuid)> {
    if c.command.Attack? then Some((c.session, c.command.attacked)) else None
  }

  /** The attacks both of whose sides are online, with the tick's damage. */
  function Landed(attacks: seq<(Uuid, Uuid)>, online: set<Uuid>, damage: int): seq<Blow>
    decreases |attacks|
  {
    if attacks == [] then []
    else (if attacks[0].0 in online && attacks[0].1 in online then [(attacks[0].0, attacks[0].1, damage)] else [])
         + Landed(attacks[1..], online, damage)
  }

  lemma {:induction false} HitsAreLanded(players: map<Uuid, Player>, attacks: seq<(Uuid, Uuid)>, tick: nat)
    ensures Blows(ResolveAttacks(players, attacks, tick).hits) == Landed(attacks, players.Keys, AttackDamage(tick))
    decreases |attacks|
  {
    if attacks != [] {
      var (a, d) := attacks[0];
      if a in players && d in players {
        var after := players[d := Hurt(players[d], AttackDamage(tick))];
        HitsAreLanded(after, attacks[1..], tick);
        HitLogHead(ResolveAttacks(players, attacks, tick).hits, 0);
        assert after.Keys == players.Keys;
      } else {
        HitsAreLanded(players, attacks[1..], tick);
      }
    }
  }

  lemma InputOneAttacks(s: Instance, c: Incoming)
    ensures InputOne(s, c).attacks == s.attacks + (if AsAttack(c).Some? then [AsAttack(c).value] else [])
  {
    if IsSpeech(c.command) {
      var events := SpeechEmits(s, c);
    }
    assert s.attacks + [] == s.attacks;
  }

  lemma {:induction false} InputCollectsAttacks(s: Instance, batch: seq<Incoming>)
    ensures Input(s, batch).attacks == s.attacks + Pick(AsAttack, batch)
    ensures Input(s, batch).tick == s.tick
    decreases |batch|
  {
    if batch == [] {
      assert s.attacks + [] == s.attacks;
    } else {
      InputOneAttacks(s, batch[0]);
      InputOneKeepsTick(s, batch[0]);
      InputCollectsAttacks(InputOne(s, batch[0]), batch[1..]);
      var now := if AsAttack(batch[0]).Some? then [AsAttack(batch[0]).value] else [];
      Associative(s.attacks, now, Pick(AsAttack, batch[1..]));
      assert Pick(AsAttack, batch) == now + Pick(AsAttack, batch[1..]);
    }
  }

  lemma InputOneKeepsTick(s: Instance, c: Incoming)
    ensures InputOne(s, c).tick == s.tick && InputOne(s, c).mapId == s.mapId
  {
    if IsSpeech(c.command) {
      var events := SpeechEmits(s, c);
    }
  }

  // ---------------------------------------------------------- the tick as a whole

  ghost predicate NoLogs(ops: seq<PersistOp>) {
    forall i :: 0 <= i < |ops| ==> !ops[i].SaveCombatLog?
  }

  lemma InputOnePersists(s: Instance, c: Incoming) returns (ops: seq<PersistOp>)
    ensures InputOne(s, c).persist == s.persist + ops && NoLogs(ops)
  {
    ops := [];
    if IsSpeech(c.command) {
      var events := SpeechEmits(s, c);
    } else if c.command.Move? && c.session in s.players {
      ops := [SavePosition(s.players[c.session].character, s.mapId, c.command.x, c.command.y)];
    }
    assert s.persist + [] == s.persist;
  }

  lemma {:induction false} InputPersists(s: Instance, batch: seq<Incoming>) returns (ops: seq<PersistOp>)
    ensures Input(s, batch).persist == s.persist + ops && NoLogs(ops)
    decreases |batch|
  {
    if batch == [] {
      ops := [];
      assert s.persist + [] == s.persist;
    } else {
      var now := InputOnePersists(s, batch[0]);
      var later := InputPersists(InputOne(s, batch[0]), batch[1..]);
      ops := now + later;
      Associative(s.persist, now, later);
    }
  }

  lemma AiSays(s: Instance, npc: Uuid) returns (said: seq<Event>)
    ensures AiPhase(s, npc) == s.(outbound := s.outbound + said) && Quiet(said)
  {
    said := if s.tick % 100 == 0 && s.players.Keys != {} then [Say(npc, NpcAiTick)] else [];
    assert s.outbound + [] == s.outbound && s.persist + [] == s.persist;
  }

  lemma AoiSays(s: Instance, views: seq<Uuid>) returns (said: seq<Event>)
    ensures AoiPhase(s, views) == s.(outbound := s.outbound + said) && Quiet(said)
  {
    said := if s.tick % 40 == 0 then Views(views, |s.players|) else [];
    assert s.outbound + [] == s.outbound && s.persist + [] == s.persist;
    assert forall i :: 0 <= i < |said| ==> said[i] in said;
  }

  lemma ClosingSays(s: Instance, npc: Uuid, views: seq<Uuid>) returns (said: seq<Event>, ops: seq<PersistOp>)
    ensures var t := InventoryPhase(AoiPhase(AiPhase(s, npc), views));
            t.outbound == s.outbound + said && t.persist == s.persist + ops
    ensures Quiet(said) && NoLogs(ops)
  {
    var ai := AiSays(s, npc);
    var a := AiPhase(s, npc);
    var aoi := AoiSays(a, views);
    var b := AoiPhase(a, views);
    said, ops := ai + aoi, InventoryOps(s.inventory, s.mapId);
    Associative(s.outbound, ai, aoi);
    assert b.outbound + [] == b.outbound;
    assert forall i :: 0 <= i < |ops| ==> ops[i] in ops;
  }

  /** A tick's event stream: the texts due, quiet events, the combat, quiet events. */
  lemma TickStream(s: Instance, batch: seq<Incoming>, o: Orders) returns (first: seq<Event>, last: seq<Event>)
    requires forall i :: 0 <= i < |o.moves| ==> o.moves[i] in AfterInput(s, batch).players
    ensures Tick(s, batch, o).outbound
         == s.outbound + (Due(s) + first + CombatEvents(AfterInput(s, batch)) + last)
    ensures Quiet(first) && Quiet(last)
  {
    var a := AfterInput(s, batch);
    var moved := MovementPhase(a, o.moves);
    var positions := Positions(a.players, o.moves);
    var said := AfterInputSays(s, batch);
    var ops;
    CombatEmits(moved);
    last, ops := ClosingSays(CastPhase(AttackPhase(moved)), o.npc, o.views);
    first := said + positions;
    assert CombatEvents(moved) == CombatEvents(a);
    assert forall i :: 0 <= i < |positions| ==> positions[i] in positions;
    Regroup(s.outbound, Due(s), said, positions, CombatEvents(a), last);
  }

  lemma Regroup<T>(a: seq<T>, b: seq<T>, c: seq<T>, d: seq<T>, e: seq<T>, f: seq<T>)
    ensures a + b + c + d + e + f == a + (b + (c + d) + e + f)
  {
  }

  lemma TickPersists(s: Instance, batch: seq<Incoming>, o: Orders) returns (first: seq<PersistOp>, last: seq<PersistOp>)
    requires forall i :: 0 <= i < |o.moves| ==> o.moves[i] in AfterInput(s, batch).players
    ensures Tick(s, batch, o).persist == s.persist + (first + CombatOps(AfterInput(s, batch)) + last)
    ensures NoLogs(first) && NoLogs(last)
  {
    var a := AfterInput(s, batch);
    var moved := MovementPhase(a, o.moves);
    first := InputPersists(ScheduledPhase(Advance(s)), batch);
    assert s.persist + [] == s.persist && a.persist + [] == a.persist;
    CombatEmits(moved);
    var said;
    said, last := ClosingSays(CastPhase(AttackPhase(moved)), o.npc, o.views);
    assert CombatOps(moved) == CombatOps(a);
    Regroup(s.persist, [], first, [], CombatOps(a), last);
    assert s.persist + [] + first + [] == s.persist + first && [] + (first + []) == first;
  }

  lemma {:induction false} NoLogsPicksNothing(ops: seq<PersistOp>)
    requires NoLogs(ops)
    ensures Pick(AsLog, ops) == []
    decreases |ops|
  {
    if ops != [] {
      NoLogsPicksNothing(ops[1..]);
    }
  }

  lemma {:induction false} NpcTextsPicked(events: seq<Event>)
    requires forall i :: 0 <= i < |events| ==> AsNpcText(events[i]).Some?
    ensures Pick(AsNpcText, events) == events && Pick(AsBlow, events) == []
    decreases |events|
  {
    if events != [] {
      NpcTextsPicked(events[1..]);
      assert events == [events[0]] + events[1..];
    }
  }

  lemma PickMiddle<T, U>(f: T -> Option<U>, a: seq<T>, b: seq<T>, c: seq<T>, d: seq<T>)
    requires Pick(f, b) == [] && Pick(f, d) == []
    ensures Pick(f, a + b + c + d) == Pick(f, a) + Pick(f, c)
  {
    PickAppend(f, a + b + c, d);
    PickAppend(f, a + b, c);
    PickAppend(f, a, b);
    assert Pick(f, a) + [] + Pick(f, c) + [] == Pick(f, a) + Pick(f, c);
  }

  /** What a tick adds to the two streams. */
  function NewEvents(s: Instance, t: Instance): seq<Event>
    requires |s.outbound| <= |t.outbound|
  {
    t.outbound[|s.outbound|..]
  }

  function NewOps(s: Instance, t: Instance): seq<PersistOp>
    requires |s.persist| <= |t.persist|
  {
    t.persist[|s.persist|..]
  }

  lemma TickPicksEvents(s: Instance, batch: seq<Incoming>, o: Orders)
    requires OnlyNpcTexts(s)
    requires forall i :: 0 <= i < |o.moves| ==> o.moves[i] in AfterInput(s, batch).players
    ensures var t := Tick(s, batch, o);
            && s.outbound <= t.outbound
            && Pick(AsBlow, NewEvents(s, t)) == Pick(AsBlow, CombatEvents(AfterInput(s, batch)))
            && Pick(AsNpcText, NewEvents(s, t)) == Due(s)
  {
    var first, last := TickStream(s, batch, o);
    var combat := CombatEvents(AfterInput(s, batch));
    assert NewEvents(s, Tick(s, batch, o)) == Due(s) + first + combat + last;
    NpcTextsPicked(Due(s));
    QuietPicksNothing(first);
    QuietPicksNothing(last);
    PickMiddle(AsBlow, Due(s), first, combat, last);
    PickMiddle(AsNpcText, Due(s), first, combat, last);
    CombatIsLogged(AfterInput(s, batch));
  }

  lemma TickPicksOps(s: Instance, batch: seq<Incoming>, o: Orders)
    requires forall i :: 0 <= i < |o.moves| ==> o.moves[i] in AfterInput(s, batch).players
    ensures var t := Tick(s, batch, o);
            && s.persist <= t.persist
            && Pick(AsLog, NewOps(s, t)) == Pick(AsLog, CombatOps(AfterInput(s, batch)))
  {
    var before, after := TickPersists(s, batch, o);
    OpsPicked(s, Tick(s, batch, o), before, CombatOps(AfterInput(s, batch)), after);
  }

  lemma OpsPicked(s: Instance, t: Instance, before: seq<PersistOp>, combat: seq<PersistOp>, after: seq<PersistOp>)
    requires t.persist == s.persist + (before + combat + after) && NoLogs(before) && NoLogs(after)
    ensures s.persist <= t.persist && Pick(AsLog, NewOps(s, t)) == Pick(AsLog, combat)
  {
    assert NewOps(s, t) == [] + before + combat + after;
    NoLogsPicksNothing(before);
    NoLogsPicksNothing(after);
    PickMiddle(AsLog, [], before, combat, after);
  }

  lemma CombatAfterInput(s: Instance, batch: seq<Incoming>)
    requires s.attacks == []
    ensures var a := AfterInput(s, batch);
            && Logged(Pick(AsBlow, CombatEvents(a)), Pick(AsLog, CombatOps(a)), a.players)
            && Landed(Pick(AsAttack, batch), KeysAfter(s.players.Keys, batch), AttackDamage(NextTick(s.tick)))
               <= Pick(AsBlow, CombatEvents(a))
  {
    var a, ready := AfterInput(s, batch), ScheduledPhase(Advance(s));
    CombatIsLogged(a);
    InputKeys(ready, batch);
    InputCollectsAttacks(ready, batch);
    assert ready.attacks + Pick(AsAttack, batch) == Pick(AsAttack, batch);
    HitsAreLanded(a.players, a.attacks, a.tick);
  }

  /** A tick's combat: each CombatResult has one SaveCombatLog, in order, under the characters the
      sessions had once the input was in; and the attacks that land are exactly those whose two
      sides are online after the whole batch, wherever in it they stood. */
  lemma TickCombat(s: Instance, batch: seq<Incoming>, o: Orders, t: Instance)
    requires OnlyNpcTexts(s) && s.attacks == [] && IsTick(s, batch, o, t)
    ensures s.outbound <= t.outbound && s.persist <= t.persist
    ensures Logged(Pick(AsBlow, NewEvents(s, t)), Pick(AsLog, NewOps(s, t)), AfterInput(s, batch).players)
    ensures Landed(Pick(AsAttack, batch), KeysAfter(s.players.Keys, batch), AttackDamage(NextTick(s.tick)))
            <= Pick(AsBlow, NewEvents(s, t))
  {
    TickPicksEvents(s, batch, o);
    TickPicksOps(s, batch, o);
    CombatAfterInput(s, batch);
  }

  /** Between ticks no attack or cast is pending. */
  lemma TickLeavesNothingPending(s: Instance, batch: seq<Incoming>, o: Orders)
    requires forall i :: 0 <= i < |o.moves| ==> o.moves[i] in AfterInput(s, batch).players
    ensures var t := Tick(s, batch, o); t.attacks == [] && t.casts == [] && t.inventory == []
  {
  }

  ghost predicate SameDamage(blows: seq<Blow>, logs: seq<Blow>) {
    |blows| == |logs| && forall i :: 0 <= i < |blows| ==> blows[i].2 == logs[i].2
  }

  lemma SameDamageGrows(s: Instance, t: Instance, who: map<Uuid, Player>)
    requires s.outbound <= t.outbound && s.persist <= t.persist
    requires SameDamage(Pick(AsBlow, s.outbound), Pick(AsLog, s.persist))
    requires Logged(Pick(AsBlow, NewEvents(s, t)), Pick(AsLog, NewOps(s, t)), who)
    ensures SameDamage(Pick(AsBlow, t.outbound), Pick(AsLog, t.persist))
  {
    assert t.outbound == s.outbound + NewEvents(s, t) && t.persist == s.persist + NewOps(s, t);
    PickAppend(AsBlow, s.outbound, NewEvents(s, t));
    PickAppend(AsLog, s.persist, NewOps(s, t));
  }

  /** Over a whole run the combat log replays the combat: as many entries as CombatResult events,
      in the same order, with the same damage. */
  lemma {:induction false} CombatLogReplays(states: seq<Instance>, batches: seq<seq<Incoming>>, orders: seq<Orders>, i: nat)
    requires IsHistory(states, batches, orders) && i < |states|
    ensures SameDamage(Pick(AsBlow, states[i].outbound), Pick(AsLog, states[i].persist))
    ensures states[i].attacks == []
    decreases i
  {
    if i > 0 {
      CombatLogReplays(states, batches, orders, i - 1);
      CombatAt(states, batches, orders, i - 1);
      SameDamageGrows(states[i - 1], states[i], AfterInput(states[i - 1], batches[i - 1]).players);
    }
  }

  lemma CombatAt(states: seq<Instance>, batches: seq<seq<Incoming>>, orders: seq<Orders>, i: nat)
    requires IsHistory(states, batches, orders) && i < |batches| && states[i].attacks == []
    ensures var s, t := states[i], states[i + 1];
            && s.outbound <= t.outbound && s.persist <= t.persist && t.attacks == []
            && Logged(Pick(AsBlow, NewEvents(s, t)), Pick(AsLog, NewOps(s, t)), AfterInput(s, batches[i]).players)
  {
    assert TickAt(states, batches, orders, i);
    HistoryKeepsStays(states, batches, orders, i);
    TickCombat(states[i], batches[i], orders[i], states[i + 1]);
    TickLeavesNothingPending(states[i], batches[i], orders[i]);
  }

  // ------------------------------------------------------------- scheduled texts

  function AsNpcRequest(c: Incoming): Option<Event> {
    if c.command.NpcInteraction? then Some(Say(c.session, NpcText(c.command.npc))) else None
  }

  function At(s: Instance, at: nat): seq<Event> {
    if at in s.scheduled then s.scheduled[at] else []
  }

  lemma {:induction false} InputSchedules(s: Instance, batch: seq<Incoming>)
    ensures var at := Min(s.tick + 1, U64_END - 1);
            && At(Input(s, batch), at) == At(s, at) + Pick(AsNpcRequest, batch)
            && Input(s, batch).scheduled.Keys <= s.scheduled.Keys + {at}
            && Input(s, batch).tick == s.tick
    decreases |batch|
  {
    var at: nat := Min(s.tick + 1, U64_END - 1);
    if batch == [] {
      assert At(s, at) + [] == At(s, at);
    } else {
      var now := if AsNpcRequest(batch[0]).Some? then [AsNpcRequest(batch[0]).value] else [];
      InputOneSchedules(s, batch[0], at, now);
      InputSchedules(InputOne(s, batch[0]), batch[1..]);
      Associative(At(s, at), now, Pick(AsNpcRequest, batch[1..]));
      assert Pick(AsNpcRequest, batch) == now + Pick(AsNpcRequest, batch[1..]);
    }
  }

  lemma InputOneSchedules(s: Instance, c: Incoming, at: nat, now: seq<Event>)
    requires at == Min(s.tick + 1, U64_END - 1)
    requires now == if AsNpcRequest(c).Some? then [AsNpcRequest(c).value] else []
    ensures At(InputOne(s, c), at) == At(s, at) + now
    ensures InputOne(s, c).scheduled.Keys <= s.scheduled.Keys + {at}
    ensures InputOne(s, c).tick == s.tick
  {
    InputOneKeepsTick(s, c);
    if !c.command.NpcInteraction? {
      OthersKeepSchedule(s, c);
    }
    assert At(s, at) + [] == At(s, at);
  }

  lemma ScheduleAfterInput(s: Instance, batch: seq<Incoming>)
    requires s.tick < U64_END && s.scheduled.Keys <= {NextTick(s.tick)}
    ensures var a := AfterInput(s, batch); var at := Min(a.tick + 1, U64_END - 1);
            && a.tick == NextTick(s.tick)
            && At(a, at) == Pick(AsNpcRequest, batch) && a.scheduled.Keys <= {at}
  {
    var ready := ScheduledPhase(Advance(s));
    InputSchedules(ready, batch);
    assert ready.scheduled.Keys == {};
    assert [] + Pick(AsNpcRequest, batch) == Pick(AsNpcRequest, batch);
  }

  lemma DueNext(a: Instance, t: Instance, requests: seq<Event>)
    requires a.tick < U64_END && t.tick == a.tick && t.scheduled == a.scheduled
    requires var at := Min(a.tick + 1, U64_END - 1); At(a, at) == requests && a.scheduled.Keys <= {at}
    ensures Due(t) == if t.tick < U64_END - 1 then requests else []
    ensures t.tick < U64_END - 1 ==> t.scheduled.Keys <= {t.tick + 1}
  {
  }

  /** One tick of the schedule: the texts due are emitted, all of them and no others, and the
      requests of the batch become due next, unless the tick index is at its very end. */
  lemma TickSchedules(s: Instance, batch: seq<Incoming>, o: Orders, t: Instance)
    requires OnlyNpcTexts(s) && s.tick < U64_END && s.scheduled.Keys <= {NextTick(s.tick)}
    requires IsTick(s, batch, o, t)
    ensures t.tick == NextTick(s.tick) && s.outbound <= t.outbound
    ensures Pick(AsNpcText, NewEvents(s, t)) == Due(s)
    ensures Due(t) == if t.tick < U64_END - 1 then Pick(AsNpcRequest, batch) else []
    ensures t.tick < U64_END - 1 ==> t.scheduled.Keys <= {t.tick + 1}
  {
    TickPicksEvents(s, batch, o);
    LaterPhasesKeepSchedule(s, batch, o);
    SchedulesNext(s, batch, t);
  }

  lemma SchedulesNext(s: Instance, batch: seq<Incoming>, t: Instance)
    requires s.tick < U64_END && s.scheduled.Keys <= {NextTick(s.tick)}
    requires t.tick == AfterInput(s, batch).tick && t.scheduled == AfterInput(s, batch).scheduled
    ensures t.tick == NextTick(s.tick)
    ensures Due(t) == if t.tick < U64_END - 1 then Pick(AsNpcRequest, batch) else []
    ensures t.tick < U64_END - 1 ==> t.scheduled.Keys <= {t.tick + 1}
  {
    ScheduleAfterInput(s, batch);
    DueNext(AfterInput(s, batch), t, Pick(AsNpcRequest, batch));
  }

  function Requests(batches: seq<seq<Incoming>>): seq<Event> {
    Pick(AsNpcRequest, Flatten(batches))
  }

  lemma RequestsSnoc(batches: seq<seq<Incoming>>, batch: seq<Incoming>)
    ensures Requests(batches + [batch]) == Requests(batches) + Pick(AsNpcRequest, batch)
  {
    FlattenAppend(batches, [batch]);
    assert Flatten([batch]) == batch + Flatten([batch][1..]) == batch;
    PickAppend(AsNpcRequest, Flatten(batches), batch);
  }

  lemma TextsGrow(s: Instance, t: Instance)
    requires s.outbound <= t.outbound && Pick(AsNpcText, NewEvents(s, t)) == Due(s)
    ensures Pick(AsNpcText, t.outbound) == Pick(AsNpcText, s.outbound) + Due(s)
  {
    assert t.outbound == s.outbound + NewEvents(s, t);
    PickAppend(AsNpcText, s.outbound, NewEvents(s, t));
  }

  /** Over a run shorter than the tick counter's range, the texts emitted so far, followed by those
      due, are the requests processed so far: each fires once, in order, one tick later. */
  lemma {:induction false} EachTextFiresOnce(states: seq<Instance>, batches: seq<seq<Incoming>>, orders: seq<Orders>, i: nat)
    requires IsHistory(states, batches, orders) && i < |states| && i < U64_END - 1
    ensures Pick(AsNpcText, states[i].outbound) + Due(states[i]) == Requests(batches[..i])
    ensures states[i].tick == i && states[i].scheduled.Keys <= {i + 1}
    decreases i
  {
    if i == 0 {
      assert batches[..0] == [];
    } else {
      EachTextFiresOnce(states, batches, orders, i - 1);
      FiresOneLater(states, batches, orders, i - 1);
      assert batches[..i] == batches[..i - 1] + [batches[i - 1]];
      RequestsSnoc(batches[..i - 1], batches[i - 1]);
    }
  }

  lemma FiresOneLater(states: seq<Instance>, batches: seq<seq<Incoming>>, orders: seq<Orders>, i: nat)
    requires IsHistory(states, batches, orders) && i < |batches| && i + 1 < U64_END - 1
    requires states[i].tick == i && states[i].scheduled.Keys <= {i + 1}
    ensures Pick(AsNpcText, states[i + 1].outbound) == Pick(AsNpcText, states[i].outbound) + Due(states[i])
    ensures Due(states[i + 1]) == Pick(AsNpcRequest, batches[i])
    ensures states[i + 1].tick == i + 1 && states[i + 1].scheduled.Keys <= {i + 2}
  {
    assert TickAt(states, batches, orders, i);
    HistoryKeepsStays(states, batches, orders, i);
    TickSchedules(states[i], batches[i], orders[i], states[i + 1]);
    TextsGrow(states[i], states[i + 1]);
  }
}
