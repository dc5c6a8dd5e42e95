/** What the event and persistence streams of a map instance say about its players. */
module MapLaws {
  import opened Wrappers
  import opened Commands
  import opened MapServer

  // ------------------------------------------------------- reading the streams

  /** The entries of a stream that f picks out, in order. */
  function Pick<T, U>(f: T -> Option<U>, s: seq<T>): seq<U>
    decreases |s|
  {
    if s == [] then []
    else match f(s[0])
    case None => Pick(f, s[1..])
    case Some(u) => [u] + Pick(f, s[1..])
  }

  lemma {:induction false} PickAppend<T, U>(f: T -> Option<U>, a: seq<T>, b: seq<T>)
    ensures Pick(f, a + b) == Pick(f, a) + Pick(f, b)
    decreases |a|
  {
    if a == [] {
      assert a + b == b;
    } else {
      assert (a + b)[1..] == a[1..] + b;
      PickAppend(f, a[1..], b);
    }
  }

  lemma {:induction false} PickNothing<T, U>(f: T -> Option<U>, s: seq<T>)
    requires forall x :: x in s ==> f(x) == None
    ensures Pick(f, s) == []
    decreases |s|
  {
    if s != [] {
      PickNothing(f, s[1..]);
    }
  }

  type Blow = (Uuid, Uuid, int)

  function AsBlow(e: Event): Option<Blow> {
    if e.CombatResult? then Some((e.attacker, e.defender, e.damage)) else None
  }

  function AsNpcText(e: Event): Option<Event> {
    if e.Say? && e.text.NpcText? then Some(e) else None
  }

  function AsLog(op: PersistOp): Option<Blow> {
    if op.SaveCombatLog? then Some((op.attacker, op.defender, op.damage)) else None
  }

  /** Damage a stretch of the event stream reports against one session. */
  function Taken(events: seq<Event>, id: Uuid): int
    decreases |events|
  {
    if events == [] then 0
    else (if events[0].CombatResult? && events[0].defender == id then events[0].damage else 0) + Taken(events[1..], id)
  }

  /** Times it tells a session that it has not enough mana. */
  function Refused(events: seq<Event>, id: Uuid): int
    decreases |events|
  {
    if events == [] then 0
    else (if events[0].Say? && events[0].session == id && events[0].text.NotEnoughMana? then 1 else 0)
         + Refused(events[1..], id)
  }

  lemma {:induction false} TallyAppend(a: seq<Event>, b: seq<Event>, id: Uuid)
    ensures Taken(a + b, id) == Taken(a, id) + Taken(b, id)
    ensures Refused(a + b, id) == Refused(a, id) + Refused(b, id)
    decreases |a|
  {
    if a == [] {
      assert a + b == b;
    } else {
      assert (a + b)[1..] == a[1..] + b;
      TallyAppend(a[1..], b, id);
    }
  }

  // ------------------------------------------------------------ the stay of a player

  function Since(s: Instance, id: Uuid): seq<Event>
    requires id in s.entered && s.entered[id] <= |s.outbound|
  {
    s.outbound[s.entered[id]..]
  }

  /** A player's hp and mp, told from a tally of its events and the casts it has made. */
  predicate Settled(p: Player, casts: int, taken: int, refused: int) {
    && p.hp == Max(0, 100 - taken)
    && p.mp == 100 - 10 * Min(10, casts)
    && refused == Max(0, casts - 10)
  }

  ghost predicate StayHolds(s: Instance, id: Uuid)
    requires id in s.players && id in s.entered && id in s.resolved
  {
    s.entered[id] <= |s.outbound| && Settled(s.players[id], s.resolved[id], Taken(Since(s, id), id), Refused(Since(s, id), id))
  }

  ghost predicate Stays(s: Instance) {
    && s.players.Keys == s.entered.Keys == s.resolved.Keys
    && forall id :: id in s.players ==> StayHolds(s, id)
  }

  lemma StayContinues(s: Instance, t: Instance, id: Uuid, events: seq<Event>)
    requires id in s.players && id in s.entered && id in s.resolved && s.entered[id] <= |s.outbound|
    requires id in t.players && id in t.entered && id in t.resolved
    requires t.entered[id] == s.entered[id] && t.outbound == s.outbound + events
    requires Settled(t.players[id], t.resolved[id], Taken(Since(s, id), id) + Taken(events, id),
                     Refused(Since(s, id), id) + Refused(events, id))
    ensures StayHolds(t, id)
  {
    assert Since(t, id) == Since(s, id) + events;
    TallyAppend(Since(s, id), events, id);
  }

  lemma SettledAfterHurt(p: Player, q: Player, casts: nat, taken: int, refused: int, now: nat)
    requires Settled(p, casts, taken, refused)
    requires q == p.(hp := Max(p.hp - now, 0))
    ensures Settled(q, casts, taken + now, refused)
  {
  }

  /** Events that are neither blows nor refusals. */
  ghost predicate Harmless(events: seq<Event>) {
    forall i :: 0 <= i < |events| ==> !events[i].CombatResult? && !(events[i].Say? && events[i].text.NotEnoughMana?)
  }

  lemma {:induction false} HarmlessTally(events: seq<Event>, id: Uuid)
    requires Harmless(events)
    ensures Taken(events, id) == 0 && Refused(events, id) == 0
    decreases |events|
  {
    if events != [] {
      HarmlessTally(events[1..], id);
    }
  }

  lemma HarmlessKeepsStay(s: Instance, t: Instance, id: Uuid, events: seq<Event>)
    requires id in s.players && id in s.entered && id in s.resolved && StayHolds(s, id)
    requires id in t.players && id in t.entered && id in t.resolved
    requires t.entered[id] == s.entered[id] && t.outbound == s.outbound + events && Harmless(events)
    requires t.players[id].hp == s.players[id].hp && t.players[id].mp == s.players[id].mp
    requires t.resolved[id] == s.resolved[id]
    ensures StayHolds(t, id)
  {
    HarmlessTally(events, id);
    StayContinues(s, t, id, events);
  }

  lemma EmitKeepsStays(s: Instance, events: seq<Event>, ops: seq<PersistOp>)
    requires Stays(s) && Harmless(events)
    ensures Stays(Emit(s, events, ops))
  {
    var t := Emit(s, events, ops);
    forall id | id in t.players
      ensures StayHolds(t, id)
    {
      HarmlessKeepsStay(s, t, id, events);
    }
  }

  // --------------------------------------------------------------------- input

  predicate IsSpeech(c: ClientCommand) {
    c.Chat? || c.Whisper? || c.GuildChat? || c.Heartbeat?
  }

  lemma SpeechEmits(s: Instance, c: Incoming) returns (events: seq<Event>)
    requires IsSpeech(c.command)
    ensures InputOne(s, c) == s.(outbound := s.outbound + events)
    ensures Harmless(events) && |events| == 1 && AsNpcText(events[0]) == None
  {
    var t := InputOne(s, c);
    events := [t.outbound[|s.outbound|]];
    assert s.persist + [] == s.persist;
  }

  lemma OthersAreSilent(s: Instance, c: Incoming)
    requires !IsSpeech(c.command)
    ensures InputOne(s, c).outbound == s.outbound
  {
    assert s.outbound + [] == s.outbound;
  }

  /** What one command puts on the event stream. */
  lemma InputOneEmits(s: Instance, c: Incoming) returns (events: seq<Event>)
    ensures InputOne(s, c).outbound == s.outbound + events
    ensures Harmless(events) && |events| <= 1 && forall i :: 0 <= i < |events| ==> AsNpcText(events[i]) == None
  {
    if IsSpeech(c.command) {
      events := SpeechEmits(s, c);
    } else {
      OthersAreSilent(s, c);
      events := [];
      assert s.outbound + [] == s.outbound;
    }
  }

  lemma OthersKeepPlayers(s: Instance, c: Incoming)
    requires !c.command.EnterWorld? && !c.command.Logout? && !c.command.Move?
    ensures var t := InputOne(s, c); t.players == s.players && t.entered == s.entered && t.resolved == s.resolved
  {
  }

  /** Whoever stays keeps hp, mp and history; whoever comes in starts afresh. */
  ghost predicate StaysOrStartsAfresh(s: Instance, t: Instance, id: Uuid) {
    && s.players.Keys == s.entered.Keys == s.resolved.Keys
    && t.players.Keys == t.entered.Keys == t.resolved.Keys
    && (id in t.players && id in s.players ==>
          && t.entered[id] == s.entered[id] && t.resolved[id] == s.resolved[id]
          && t.players[id].hp == s.players[id].hp && t.players[id].mp == s.players[id].mp)
    && (id in t.players && id !in s.players ==>
          && t.entered[id] == |s.outbound| == |t.outbound| && t.resolved[id] == 0
          && t.players[id].hp == 100 && t.players[id].mp == 100)
  }

  lemma InputOnePlayers(s: Instance, c: Incoming, id: Uuid)
    requires s.players.Keys == s.entered.Keys == s.resolved.Keys
    ensures StaysOrStartsAfresh(s, InputOne(s, c), id)
  {
    if !c.command.EnterWorld? && !c.command.Logout? && !c.command.Move? {
      OthersKeepPlayers(s, c);
    } else {
      MoversKeepPlayers(s, c, id);
    }
  }

  lemma MoversKeepPlayers(s: Instance, c: Incoming, id: Uuid)
    requires s.players.Keys == s.entered.Keys == s.resolved.Keys
    requires c.command.EnterWorld? || c.command.Logout? || c.command.Move?
    ensures StaysOrStartsAfresh(s, InputOne(s, c), id)
  {
  }

  lemma InputOneKeepsStays(s: Instance, c: Incoming)
    requires Stays(s)
    ensures Stays(InputOne(s, c))
  {
    var t := InputOne(s, c);
    var events := InputOneEmits(s, c);
    InputOnePlayers(s, c, c.session);
    forall id | id in t.players
      ensures StayHolds(t, id)
    {
      InputOnePlayers(s, c, id);
      if id in s.players {
        HarmlessKeepsStay(s, t, id, events);
      } else {
        assert Since(t, id) == [];
      }
    }
  }

  lemma {:induction false} InputKeepsStays(s: Instance, batch: seq<Incoming>)
    requires Stays(s)
    ensures Stays(Input(s, batch))
    decreases |batch|
  {
    if batch != [] {
      InputOneKeepsStays(s, batch[0]);
      InputKeepsStays(InputOne(s, batch[0]), batch[1..]);
    }
  }

  // -------------------------------------------------------------------- combat

  function Blows(hits: seq<Hit>): (blows: seq<Blow>)
    ensures |blows| == |hits|
  {
    seq(|hits|, i requires 0 <= i < |hits| => (hits[i].attacker, hits[i].defender, hits[i].damage))
  }

  lemma {:induction false} HitEventsShowBlows(hits: seq<Hit>)
    ensures Pick(AsBlow, HitEvents(hits)) == Blows(hits)
    ensures Pick(AsNpcText, HitEvents(hits)) == []
    decreases |hits|
  {
    if hits != [] {
      var h := hits[0];
      var head := [CombatResult(h.attacker, h.defender, h.damage)];
      var fall := if h.defeated then [Say(h.defender, Defeated)] else [];
      HitEventsShowBlows(hits[1..]);
      assert HitEvents(hits) == head + fall + HitEvents(hits[1..]);
      PickHead(AsBlow, head, fall, HitEvents(hits[1..]));
      PickHead(AsNpcText, head, fall, HitEvents(hits[1..]));
      assert Blows(hits) == [(h.attacker, h.defender, h.damage)] + Blows(hits[1..]);
    }
  }

  lemma PickHead<U>(f: Event -> Option<U>, head: seq<Event>, fall: seq<Event>, rest: seq<Event>)
    requires |head| == 1 && |fall| <= 1 && (fall != [] ==> f(fall[0]) == None)
    ensures Pick(f, head + fall + rest) == (if f(head[0]).Some? then [f(head[0]).value] else []) + Pick(f, rest)
  {
    PickAppend(f, head + fall, rest);
    PickAppend(f, head, fall);
    PickNothing(f, fall);
    assert head[1..] == [];
    assert Pick(f, head) == if f(head[0]).Some? then [f(head[0]).value] else [];
  }

  /** Damage the hits deal to one session. */
  function Dealt(hits: seq<Hit>, id: Uuid): int
    decreases |hits|
  {
    if hits == [] then 0 else (if hits[0].defender == id then hits[0].damage else 0) + Dealt(hits[1..], id)
  }

  lemma {:induction false} HitEventsTally(hits: seq<Hit>, id: Uuid)
    ensures Taken(HitEvents(hits), id) == Dealt(hits, id) && Refused(HitEvents(hits), id) == 0
    decreases |hits|
  {
    if hits != [] {
      var h := hits[0];
      var head := [CombatResult(h.attacker, h.defender, h.damage)];
      var fall := if h.defeated then [Say(h.defender, Defeated)] else [];
      HitEventsTally(hits[1..], id);
      TallyAppend(head + fall, HitEvents(hits[1..]), id);
      TallyAppend(head, fall, id);
      assert head[1..] == [] && (fall != [] ==> fall[1..] == []);
    }
  }

  /** What the attacks of a tick do to one player. */
  lemma {:induction false} AttacksHurt(players: map<Uuid, Player>, attacks: seq<(Uuid, Uuid)>, tick: nat, id: Uuid)
    requires id in players && players[id].hp >= 0
    ensures var fight := ResolveAttacks(players, attacks, tick);
            && fight.players.Keys == players.Keys
            && Dealt(fight.hits, id) >= 0
            && fight.players[id] == players[id].(hp := Max(players[id].hp - Dealt(fight.hits, id), 0))
    decreases |attacks|
  {
    if attacks != [] {
      var (a, d) := attacks[0];
      if a in players && d in players {
        AttacksHurt(players[d := Hurt(players[d], AttackDamage(tick))], attacks[1..], tick, id);
      } else {
        AttacksHurt(players, attacks[1..], tick, id);
      }
    }
  }

  lemma AttackPhaseKeepsStay(s: Instance, id: Uuid)
    requires Stays(s) && id in s.players
    ensures id in AttackPhase(s).players && StayHolds(AttackPhase(s), id)
  {
    var fight := ResolveAttacks(s.players, s.attacks, s.tick);
    var events := HitEvents(fight.hits);
    HitEventsTally(fight.hits, id);
    AttacksHurt(s.players, s.attacks, s.tick, id);
    SettledAfterHurt(s.players[id], fight.players[id], s.resolved[id],
                     Taken(Since(s, id), id), Refused(Since(s, id), id), Dealt(fight.hits, id));
    StayContinues(s, AttackPhase(s), id, events);
  }

  lemma AttackPhaseKeepsStays(s: Instance)
    requires Stays(s)
    ensures Stays(AttackPhase(s))
  {
    KeysAfterAttacks(s.players, s.attacks, s.tick);
    forall id | id in s.players
      ensures StayHolds(AttackPhase(s), id)
    {
      AttackPhaseKeepsStay(s, id);
    }
  }

  lemma {:induction false} KeysAfterAttacks(players: map<Uuid, Player>, attacks: seq<(Uuid, Uuid)>, tick: nat)
    ensures ResolveAttacks(players, attacks, tick).players.Keys == players.Keys
    decreases |attacks|
  {
    if attacks != [] {
      var (a, d) := attacks[0];
      if a in players && d in players {
        KeysAfterAttacks(players[d := Hurt(players[d], AttackDamage(tick))], attacks[1..], tick);
      } else {
        KeysAfterAttacks(players, attacks[1..], tick);
      }
    }
  }

  // ------------------------------------------------------------------- casting

  /** How many of the casts are one session's. */
  function CastsBy(casts: seq<Cast>, id: Uuid): nat
    decreases |casts|
  {
    if casts == [] then 0 else (if casts[0].caster == id then 1 else 0) + CastsBy(casts[1..], id)
  }

  /** What charging a tick's casts does to one player: each of its casts is resolved once; the first
      ten of its stay are charged, every later one is refused. */
  lemma {:induction false} CastsCharge(players: map<Uuid, Player>, casts: seq<Cast>, resolved: map<Uuid, nat>, id: Uuid)
    requires id in players && id in resolved && players[id].mp == 100 - 10 * Min(10, resolved[id])
    ensures var c := ChargeCasts(players, casts, resolved);
            && id in c.resolved && id in c.players && c.resolved[id] == resolved[id] + CastsBy(casts, id)
            && c.players[id] == players[id].(mp := 100 - 10 * Min(10, c.resolved[id]))
            && Taken(c.refusals, id) == 0
            && Refused(c.refusals, id) == Max(0, c.resolved[id] as int - 10) - Max(0, resolved[id] as int - 10)
    decreases |casts|
  {
    if casts != [] {
      var c := casts[0];
      if c.caster !in players {
        CastsCharge(players, casts[1..], resolved, id);
      } else {
        var p, counted := players[c.caster], Increment(resolved, c.caster);
        if p.mp < 10 {
          CastsCharge(players, casts[1..], counted, id);
        } else {
          CastsCharge(players[c.caster := p.(mp := p.mp - 10)], casts[1..], counted, id);
        }
      }
    }
  }

  lemma {:induction false} KeysAfterCharge(players: map<Uuid, Player>, casts: seq<Cast>, resolved: map<Uuid, nat>)
    requires players.Keys == resolved.Keys
    ensures var c := ChargeCasts(players, casts, resolved);
            c.players.Keys == players.Keys && c.resolved.Keys == players.Keys
    decreases |casts|
  {
    if casts != [] {
      var c := casts[0];
      if c.caster !in players {
        KeysAfterCharge(players, casts[1..], resolved);
      } else {
        var p, counted := players[c.caster], Increment(resolved, c.caster);
        if p.mp < 10 {
          KeysAfterCharge(players, casts[1..], counted);
        } else {
          KeysAfterCharge(players[c.caster := p.(mp := p.mp - 10)], casts[1..], counted);
        }
      }
    }
  }

  /** What a tick's spells do to one player. */
  lemma {:induction false} SpellsHurt(players: map<Uuid, Player>, spells: seq<Spell>, mapId: MapId, id: Uuid)
    requires id in players && players[id].hp >= 0
    ensures var e := ApplySpells(players, spells, mapId);
            && e.players.Keys == players.Keys
            && Taken(e.events, id) >= 0 && Refused(e.events, id) == 0
            && e.players[id] == players[id].(hp := Max(players[id].hp - Taken(e.events, id), 0))
    decreases |spells|
  {
    if spells != [] {
      var c := spells[0];
      if c.target.None? || c.target.value !in players {
        SpellsHurt(players, spells[1..], mapId, id);
      } else {
        var t := c.target.value;
        SpellsHurt(players[t := Hurt(players[t], SkillDamage(c.skillId))], spells[1..], mapId, id);
      }
    }
  }

  lemma {:induction false} KeysAfterSpells(players: map<Uuid, Player>, spells: seq<Spell>, mapId: MapId)
    ensures ApplySpells(players, spells, mapId).players.Keys == players.Keys
    decreases |spells|
  {
    if spells != [] {
      var c := spells[0];
      if c.target.None? || c.target.value !in players {
        KeysAfterSpells(players, spells[1..], mapId);
      } else {
        var t := c.target.value;
        KeysAfterSpells(players[t := Hurt(players[t], SkillDamage(c.skillId))], spells[1..], mapId);
      }
    }
  }

  lemma SettledAfterCharge(p: Player, q: Player, casts: nat, more: nat, taken: int, refused: int, now: int)
    requires Settled(p, casts, taken, refused) && more >= casts
    requires q == p.(mp := 100 - 10 * Min(10, more))
    requires now == Max(0, more as int - 10) - Max(0, casts as int - 10)
    ensures Settled(q, more, taken, refused + now)
  {
  }

  lemma ChargePhaseKeepsStay(s: Instance, id: Uuid)
    requires Stays(s) && id in s.players && id in ChargePhase(s).players && id in ChargePhase(s).resolved
    ensures StayHolds(ChargePhase(s), id)
  {
    var charge := ChargeCasts(s.players, s.casts, s.resolved);
    CastsCharge(s.players, s.casts, s.resolved, id);
    SettledAfterCharge(s.players[id], charge.players[id], s.resolved[id], charge.resolved[id],
                       Taken(Since(s, id), id), Refused(Since(s, id), id), Refused(charge.refusals, id));
    StayContinues(s, ChargePhase(s), id, charge.refusals);
  }

  lemma ChargePhaseKeepsStays(s: Instance)
    requires Stays(s)
    ensures Stays(ChargePhase(s))
  {
    KeysAfterCharge(s.players, s.casts, s.resolved);
    forall id | id in s.players
      ensures StayHolds(ChargePhase(s), id)
    {
      ChargePhaseKeepsStay(s, id);
    }
  }

  lemma SpellPhaseKeepsStays(s: Instance, spells: seq<Spell>)
    requires Stays(s)
    ensures Stays(SpellPhase(s, spells))
  {
    KeysAfterSpells(s.players, spells, s.mapId);
    forall id | id in s.players
      ensures StayHolds(SpellPhase(s, spells), id)
    {
      SpellPhaseKeepsStay(s, spells, id);
    }
  }

  lemma SpellPhaseKeepsStay(s: Instance, spells: seq<Spell>, id: Uuid)
    requires Stays(s) && id in s.players && id in ApplySpells(s.players, spells, s.mapId).players
    ensures StayHolds(SpellPhase(s, spells), id)
  {
    var effect := ApplySpells(s.players, spells, s.mapId);
    assert StayHolds(s, id);
    SpellsHurt(s.players, spells, s.mapId, id);
    SettledAfterHurt(s.players[id], effect.players[id], s.resolved[id],
                     Taken(Since(s, id), id), Refused(Since(s, id), id), Taken(effect.events, id));
    StayContinues(s, SpellPhase(s, spells), id, effect.events);
  }

  lemma CastPhaseKeepsStays(s: Instance)
    requires Stays(s)
    ensures Stays(CastPhase(s))
  {
    ChargePhaseKeepsStays(s);
    SpellPhaseKeepsStays(ChargePhase(s), ChargeCasts(s.players, s.casts, s.resolved).spells);
  }

  // ------------------------------------------------------------- ticks and runs

  /** Only texts of non-player characters are ever scheduled. */
  ghost predicate OnlyNpcTexts(s: Instance) {
    forall at, i :: at in s.scheduled && 0 <= i < |s.scheduled[at]| ==> AsNpcText(s.scheduled[at][i]).Some?
  }

  lemma {:induction false} InputKeepsNpcTexts(s: Instance, batch: seq<Incoming>)
    requires OnlyNpcTexts(s)
    ensures OnlyNpcTexts(Input(s, batch))
    decreases |batch|
  {
    if batch != [] {
      InputOneKeepsNpcTexts(s, batch[0]);
      InputKeepsNpcTexts(InputOne(s, batch[0]), batch[1..]);
    }
  }

  lemma InputOneKeepsNpcTexts(s: Instance, c: Incoming)
    requires OnlyNpcTexts(s)
    ensures OnlyNpcTexts(InputOne(s, c))
  {
    if c.command.NpcInteraction? {
      var t := InputOne(s, c);
      var at := Min(s.tick + 1, U64_END - 1);
      forall k, i | k in t.scheduled && 0 <= i < |t.scheduled[k]|
        ensures AsNpcText(t.scheduled[k][i]).Some?
      {
        assert k != at ==> t.scheduled[k] == s.scheduled[k];
      }
    } else {
      OthersKeepSchedule(s, c);
    }
  }

  lemma OthersKeepSchedule(s: Instance, c: Incoming)
    requires !c.command.NpcInteraction?
    ensures InputOne(s, c).scheduled == s.scheduled
  {
    if IsSpeech(c.command) {
      var events := SpeechEmits(s, c);
    }
  }

  lemma ScheduledPhaseKeepsStays(s: Instance)
    requires Stays(s) && OnlyNpcTexts(s)
    ensures Stays(ScheduledPhase(s)) && OnlyNpcTexts(ScheduledPhase(s))
  {
    if s.tick in s.scheduled {
      var t := s.(scheduled := s.scheduled - {s.tick});
      SameStays(s, t);
      EmitKeepsStays(t, s.scheduled[s.tick], []);
    }
  }

  /** Stays only depend on the players, their history and the event stream. */
  lemma SameStays(s: Instance, t: Instance)
    requires Stays(s)
    requires t.players == s.players && t.entered == s.entered && t.resolved == s.resolved && t.outbound == s.outbound
    ensures Stays(t)
  {
    forall id | id in t.players
      ensures StayHolds(t, id)
    {
      assert StayHolds(s, id);
    }
  }

  lemma AfterInputKeepsStays(s: Instance, batch: seq<Incoming>)
    requires Stays(s) && OnlyNpcTexts(s)
    ensures Stays(AfterInput(s, batch)) && OnlyNpcTexts(AfterInput(s, batch))
  {
    SameStays(s, Advance(s));
    ScheduledPhaseKeepsStays(Advance(s));
    InputKeepsStays(ScheduledPhase(Advance(s)), batch);
    InputKeepsNpcTexts(ScheduledPhase(Advance(s)), batch);
  }

  lemma MovementKeepsStays(s: Instance, order: seq<Uuid>)
    requires Stays(s) && forall i :: 0 <= i < |order| ==> order[i] in s.players
    ensures Stays(MovementPhase(s, order))
  {
    EmitKeepsStays(s, Positions(s.players, order), []);
  }

  lemma ClosingPhasesKeepStays(s: Instance, npc: Uuid, views: seq<Uuid>)
    requires Stays(s)
    ensures Stays(InventoryPhase(AoiPhase(AiPhase(s, npc), views)))
  {
    var a := AiPhase(s, npc);
    EmitKeepsStays(s, [Say(npc, NpcAiTick)], []);
    var b := AoiPhase(a, views);
    EmitKeepsStays(a, Views(views, |a.players|), []);
    SameStays(b, b.(inventory := []));
    EmitKeepsStays(b.(inventory := []), [], InventoryOps(b.inventory, b.mapId));
  }

  /** After the input phase nothing is scheduled and nobody comes or goes. */
  lemma LaterPhasesKeepSchedule(s: Instance, batch: seq<Incoming>, o: Orders)
    requires forall i :: 0 <= i < |o.moves| ==> o.moves[i] in AfterInput(s, batch).players
    ensures Tick(s, batch, o).scheduled == AfterInput(s, batch).scheduled
    ensures Tick(s, batch, o).tick == AfterInput(s, batch).tick
  {
  }

  lemma TickKeepsStays(s: Instance, batch: seq<Incoming>, o: Orders)
    requires Stays(s) && OnlyNpcTexts(s) && ValidOrders(o, AfterInput(s, batch).players.Keys)
    ensures Stays(Tick(s, batch, o)) && OnlyNpcTexts(Tick(s, batch, o))
  {
    AfterInputKeepsStays(s, batch);
    var moved := MovementPhase(AfterInput(s, batch), o.moves);
    MovementKeepsStays(AfterInput(s, batch), o.moves);
    AttackPhaseKeepsStays(moved);
    CastPhaseKeepsStays(AttackPhase(moved));
    ClosingPhasesKeepStays(CastPhase(AttackPhase(moved)), o.npc, o.views);
    LaterPhasesKeepSchedule(s, batch, o);
  }
}
