/** Combat told from commands: which casts are paid, what each blow, refusal and log comes from, and
    the skill budget of a stay counted in the CastSkill commands a session has sent. */
module CombatLaws {
  import opened Wrappers
  import opened Commands
  import opened MapServer
  import opened MapLaws
  import opened MapRuns
  import opened TickOrder

  // ---------------------------------------------------------- casts, from commands

  function AsCast(c: Incoming): Option<Cast> {
    if c.command.CastSkill? then Some(Cast(c.session, c.command.skillId, c.command.target)) else None
  }

  lemma InputOneCasts(s: Instance, c: Incoming)
    ensures InputOne(s, c).casts == s.casts + if AsCast(c).Some? then [AsCast(c).value] else []
  {
    if IsSpeech(c.command) {
      var events := SpeechEmits(s, c);
    }
    assert s.casts + [] == s.casts;
  }

  /** The input phase collects exactly the batch's casts, in order. */
  lemma {:induction false} InputCollectsCasts(s: Instance, batch: seq<Incoming>)
    ensures Input(s, batch).casts == s.casts + Pick(AsCast, batch)
    decreases |batch|
  {
    if batch == [] {
      assert s.casts + [] == s.casts;
    } else {
      var now := if AsCast(batch[0]).Some? then [AsCast(batch[0]).value] else [];
      InputOneCasts(s, batch[0]);
      InputCollectsCasts(InputOne(s, batch[0]), batch[1..]);
      Associative(s.casts, now, Pick(AsCast, batch[1..]));
      assert Pick(AsCast, batch) == now + Pick(AsCast, batch[1..]);
    }
  }

  lemma CastsAfterInput(s: Instance, batch: seq<Incoming>)
    requires s.casts == [] && s.attacks == []
    ensures AfterInput(s, batch).casts == Pick(AsCast, batch) && AfterInput(s, batch).attacks == Pick(AsAttack, batch)
  {
    InputCollectsCasts(ScheduledPhase(Advance(s)), batch);
    InputCollectsAttacks(ScheduledPhase(Advance(s)), batch);
    assert [] + Pick(AsCast, batch) == Pick(AsCast, batch);
    assert [] + Pick(AsAttack, batch) == Pick(AsAttack, batch);
  }

  lemma {:induction false} CastsByAppend(a: seq<Cast>, b: seq<Cast>, id: Uuid)
    ensures CastsBy(a + b, id) == CastsBy(a, id) + CastsBy(b, id)
    decreases |a|
  {
    if a == [] {
      assert a + b == b;
    } else {
      assert (a + b)[1..] == a[1..] + b;
      CastsByAppend(a[1..], b, id);
    }
  }

  // ------------------------------------------------------ which casts are paid for

  /** How many casts the caster had made in its stay before this one, given those made before the
      tick and those of the tick that come first. */
  function MadeBefore(made: map<Uuid, nat>, earlier: seq<Cast>, id: Uuid): nat {
    (if id in made then made[id] else 0) + CastsBy(earlier, id)
  }

  /** The casts that are charged: those of online sessions that are among the first ten of the
      caster's stay. */
  function Paid(made: map<Uuid, nat>, earlier: seq<Cast>, casts: seq<Cast>): seq<Cast>
    decreases |casts|
  {
    if casts == [] then []
    else
      var c := casts[0];
      (if c.caster in made && MadeBefore(made, earlier, c.caster) < 10 then [c] else [])
      + Paid(made, earlier + [c], casts[1..])
  }

  /** The casts of online sessions that come after their tenth. */
  function Unpaid(made: map<Uuid, nat>, earlier: seq<Cast>, casts: seq<Cast>): seq<Cast>
    decreases |casts|
  {
    if casts == [] then []
    else
      var c := casts[0];
      (if c.caster in made && MadeBefore(made, earlier, c.caster) >= 10 then [c] else [])
      + Unpaid(made, earlier + [c], casts[1..])
  }

  /** One session's casts, in order. */
  function Own(casts: seq<Cast>, id: Uuid): seq<Cast>
    decreases |casts|
  {
    if casts == [] then [] else (if casts[0].caster == id then [casts[0]] else []) + Own(casts[1..], id)
  }

  lemma {:induction false} OwnAppend(a: seq<Cast>, b: seq<Cast>, id: Uuid)
    ensures Own(a + b, id) == Own(a, id) + Own(b, id)
    decreases |a|
  {
    if a == [] {
      assert a + b == b;
    } else {
      assert (a + b)[1..] == a[1..] + b;
      OwnAppend(a[1..], b, id);
      Associative(if a[0].caster == id then [a[0]] else [], Own(a[1..], id), Own(b, id));
    }
  }

  lemma OwnOne(c: Cast, rest: seq<Cast>, yes: bool, id: Uuid)
    ensures Own((if yes then [c] else []) + rest, id) == (if yes && c.caster == id then [c] else []) + Own(rest, id)
  {
    OwnAppend(if yes then [c] else [], rest, id);
    assert [c][1..] == [];
  }

  lemma CutAfterHead(c: Cast, rest: seq<Cast>, k: nat)
    requires k <= 1 + |rest|
    ensures k > 0 ==> ([c] + rest)[..k] == [c] + rest[..k - 1] && ([c] + rest)[k..] == rest[k - 1..]
    ensures ([c] + rest)[..0] == rest[..0] == [] && ([c] + rest)[0..] == [c] + rest[0..]
  {
  }

  /** Of an online session's casts, those up to the tenth of its stay are paid for, in order, and all
      the others are refused, in order. */
  lemma {:induction false} FirstTenArePaid(made: map<Uuid, nat>, earlier: seq<Cast>, casts: seq<Cast>, id: Uuid, n: nat, k: nat)
    requires id in made && n == MadeBefore(made, earlier, id) && k == Min(|Own(casts, id)|, Max(0, 10 - n))
    ensures Own(Paid(made, earlier, casts), id) == Own(casts, id)[..k]
    ensures Own(Unpaid(made, earlier, casts), id) == Own(casts, id)[k..]
    decreases |casts|
  {
    if casts != [] {
      var c, more := casts[0], earlier + [casts[0]];
      var online, nth := c.caster in made, MadeBefore(made, earlier, c.caster);
      OwnOne(c, Paid(made, more, casts[1..]), online && nth < 10, id);
      OwnOne(c, Unpaid(made, more, casts[1..]), online && nth >= 10, id);
      CastsByAppend(earlier, [c], id);
      assert [c][1..] == [];
      if c.caster == id {
        FirstTenArePaid(made, more, casts[1..], id, n + 1, if k > 0 then k - 1 else 0);
        CutAfterHead(c, Own(casts[1..], id), k);
      } else {
        FirstTenArePaid(made, more, casts[1..], id, n, k);
      }
    }
  }

  function SpellOf(r: Registry, c: Cast): Spell {
    Spell(c.caster, if c.caster in r then r[c.caster] else c.caster, c.skillId, c.target)
  }

  function SpellsOf(r: Registry, casts: seq<Cast>): (spells: seq<Spell>)
    ensures |spells| == |casts| && forall i :: 0 <= i < |casts| ==> spells[i] == SpellOf(r, casts[i])
  {
    seq(|casts|, i requires 0 <= i < |casts| => SpellOf(r, casts[i]))
  }

  function Refusals(casts: seq<Cast>): (events: seq<Event>)
    ensures |events| == |casts| && forall i :: 0 <= i < |casts| ==> events[i] == Say(casts[i].caster, NotEnoughMana)
  {
    seq(|casts|, i requires 0 <= i < |casts| => Say(casts[i].caster, NotEnoughMana))
  }

  /** The mana and the tally of everyone online agree with the casts made so far. */
  ghost predicate Accounted(players: map<Uuid, Player>, resolved: map<Uuid, nat>, r: Registry, made: map<Uuid, nat>, earlier: seq<Cast>) {
    && players.Keys == resolved.Keys == made.Keys == r.Keys
    && forall id :: id in players ==> AccountedFor(players[id], resolved[id], r[id], MadeBefore(made, earlier, id))
  }

  predicate AccountedFor(p: Player, resolved: nat, character: Uuid, before: nat) {
    p.mp == 100 - 10 * Min(10, resolved) && p.character == character && resolved == before
  }

  lemma AccountGrows(players: map<Uuid, Player>, resolved: map<Uuid, nat>, r: Registry, made: map<Uuid, nat>, earlier: seq<Cast>, c: Cast)
    requires Accounted(players, resolved, r, made, earlier) && c.caster in players
    ensures var p := players[c.caster];
            Accounted(if p.mp < 10 then players else players[c.caster := p.(mp := p.mp - 10)],
                      Increment(resolved, c.caster), r, made, earlier + [c])
  {
    forall id
      ensures MadeBefore(made, earlier + [c], id) == MadeBefore(made, earlier, id) + if id == c.caster then 1 else 0
    {
      CastsByAppend(earlier, [c], id);
      assert [c][1..] == [];
    }
    assert AccountedFor(players[c.caster], resolved[c.caster], r[c.caster], MadeBefore(made, earlier, c.caster));
  }

  lemma AccountSkips(players: map<Uuid, Player>, resolved: map<Uuid, nat>, r: Registry, made: map<Uuid, nat>, earlier: seq<Cast>, c: Cast)
    requires Accounted(players, resolved, r, made, earlier) && c.caster !in players
    ensures Accounted(players, resolved, r, made, earlier + [c])
  {
    forall id | id in players
      ensures MadeBefore(made, earlier + [c], id) == MadeBefore(made, earlier, id)
    {
      CastsByAppend(earlier, [c], id);
      assert [c][1..] == [];
    }
  }

  lemma FirstPaid(r: Registry, c: Cast, later: seq<Cast>)
    ensures SpellsOf(r, [c] + later) == [SpellOf(r, c)] + SpellsOf(r, later)
    ensures Refusals([c] + later) == [Say(c.caster, NotEnoughMana)] + Refusals(later)
  {
  }

  /** The charging round pays for exactly the first ten casts of each stay and refuses the others. */
  lemma {:induction false} ChargePaysFirstTen(players: map<Uuid, Player>, casts: seq<Cast>, resolved: map<Uuid, nat>,
                                              r: Registry, made: map<Uuid, nat>, earlier: seq<Cast>)
    requires Accounted(players, resolved, r, made, earlier)
    ensures var c := ChargeCasts(players, casts, resolved);
            c.spells == SpellsOf(r, Paid(made, earlier, casts)) && c.refusals == Refusals(Unpaid(made, earlier, casts))
    decreases |casts|
  {
    if casts != [] {
      var c := casts[0];
      var paid, unpaid := Paid(made, earlier + [c], casts[1..]), Unpaid(made, earlier + [c], casts[1..]);
      if c.caster !in players {
        AccountSkips(players, resolved, r, made, earlier, c);
        ChargePaysFirstTen(players, casts[1..], resolved, r, made, earlier + [c]);
      } else {
        var p := players[c.caster];
        AccountGrows(players, resolved, r, made, earlier, c);
        assert AccountedFor(p, resolved[c.caster], r[c.caster], MadeBefore(made, earlier, c.caster));
        if p.mp < 10 {
          ChargePaysFirstTen(players, casts[1..], Increment(resolved, c.caster), r, made, earlier + [c]);
          FirstPaid(r, c, unpaid);
        } else {
          ChargePaysFirstTen(players[c.caster := p.(mp := p.mp - 10)], casts[1..], Increment(resolved, c.caster), r, made, earlier + [c]);
          FirstPaid(r, c, paid);
        }
      }
    }
  }

  // ------------------------------------------------------------ what spells do

  /** One paid cast: announced without a target, a blow on a target that is online, else nothing. */
  function CastEvents(c: Cast, online: set<Uuid>): seq<Event> {
    if c.target.None? then [Say(c.caster, SkillCast(c.skillId))]
    else if c.target.value in online then [CombatResult(c.caster, c.target.value, SkillDamage(c.skillId))]
    else []
  }

  function CastOps(c: Cast, r: Registry, mapId: MapId): seq<PersistOp> {
    if c.caster in r && c.target.Some? && c.target.value in r
    then [SaveCombatLog(r[c.caster], r[c.target.value], mapId, SkillDamage(c.skillId))]
    else []
  }

  function CastStory(casts: seq<Cast>, online: set<Uuid>): seq<Event>
    decreases |casts|
  {
    if casts == [] then [] else CastEvents(casts[0], online) + CastStory(casts[1..], online)
  }

  function CastLogs(casts: seq<Cast>, r: Registry, mapId: MapId): seq<PersistOp>
    decreases |casts|
  {
    if casts == [] then [] else CastOps(casts[0], r, mapId) + CastLogs(casts[1..], r, mapId)
  }

  ghost predicate AllOnline(casts: seq<Cast>, r: Registry) {
    forall i :: 0 <= i < |casts| ==> casts[i].caster in r
  }

  lemma {:induction false} PaidAreOnline(made: map<Uuid, nat>, earlier: seq<Cast>, casts: seq<Cast>, r: Registry)
    requires made.Keys == r.Keys
    ensures AllOnline(Paid(made, earlier, casts), r)
    decreases |casts|
  {
    if casts != [] {
      PaidAreOnline(made, earlier + [casts[0]], casts[1..], r);
    }
  }

  lemma {:induction false} SpellsTold(players: map<Uuid, Player>, casts: seq<Cast>, spells: seq<Spell>, r: Registry, mapId: MapId)
    requires RegistryOf(players) == r && spells == SpellsOf(r, casts) && AllOnline(casts, r)
    ensures var e := ApplySpells(players, spells, mapId);
            e.events == CastStory(casts, r.Keys) && e.ops == CastLogs(casts, r, mapId)
    decreases |casts|
  {
    if casts != [] {
      var c := casts[0];
      assert spells[0] == SpellOf(r, c) && spells[1..] == SpellsOf(r, casts[1..]);
      assert r.Keys == players.Keys;
      if c.target.Some? && c.target.value in players {
        var t := c.target.value;
        var after := players[t := Hurt(players[t], SkillDamage(c.skillId))];
        assert RegistryOf(after) == r;
        SpellsTold(after, casts[1..], spells[1..], r, mapId);
      } else {
        SpellsTold(players, casts[1..], spells[1..], r, mapId);
      }
    }
  }

  // ------------------------------------------------------------ what attacks do

  /** The damage each session has taken once one more blow of an attack round lands. */
  function Struck(taken: map<Uuid, int>, d: Uuid, damage: int): map<Uuid, int> {
    taken[d := (if d in taken then taken[d] else 0) + damage]
  }

  /** An attack round: a blow for each attack whose two sides are online, and a defeat text whenever
      the damage the defender has taken in its stay comes to a hundred or more. */
  function AttackStory(attacks: seq<(Uuid, Uuid)>, taken: map<Uuid, int>, damage: int): seq<Event>
    decreases |attacks|
  {
    if attacks == [] then []
    else
      var (a, d) := attacks[0];
      if a !in taken || d !in taken then AttackStory(attacks[1..], taken, damage)
      else
        [CombatResult(a, d, damage)] + (if taken[d] + damage >= 100 then [Say(d, Defeated)] else [])
        + AttackStory(attacks[1..], Struck(taken, d, damage), damage)
  }

  function AttackLogs(attacks: seq<(Uuid, Uuid)>, r: Registry, damage: int, mapId: MapId): seq<PersistOp>
    decreases |attacks|
  {
    if attacks == [] then []
    else
      var (a, d) := attacks[0];
      (if a in r && d in r then [SaveCombatLog(r[a], r[d], mapId, damage)] else [])
      + AttackLogs(attacks[1..], r, damage, mapId)
  }

  ghost predicate Wounded(players: map<Uuid, Player>, taken: map<Uuid, int>) {
    players.Keys == taken.Keys && forall id :: id in players ==> players[id].hp == Max(0, 100 - taken[id])
  }

  lemma {:induction false} AttacksTold(players: map<Uuid, Player>, attacks: seq<(Uuid, Uuid)>, tick: nat,
                                       taken: map<Uuid, int>, r: Registry, mapId: MapId)
    requires Wounded(players, taken) && RegistryOf(players) == r
    ensures var fight := ResolveAttacks(players, attacks, tick);
            && HitEvents(fight.hits) == AttackStory(attacks, taken, AttackDamage(tick))
            && HitOps(fight.hits, mapId) == AttackLogs(attacks, r, AttackDamage(tick), mapId)
            && RegistryOf(fight.players) == r
    decreases |attacks|
  {
    if attacks != [] {
      var (a, d) := attacks[0];
      assert r.Keys == players.Keys;
      if a in players && d in players {
        var after := players[d := Hurt(players[d], AttackDamage(tick))];
        assert RegistryOf(after) == r && Wounded(after, Struck(taken, d, AttackDamage(tick)));
        AttacksTold(after, attacks[1..], tick, Struck(taken, d, AttackDamage(tick)), r, mapId);
        var later := ResolveAttacks(after, attacks[1..], tick).hits;
        assert ResolveAttacks(players, attacks, tick).hits[1..] == later;
      } else {
        AttacksTold(players, attacks[1..], tick, taken, r, mapId);
      }
    }
  }

  // ------------------------------------------------------------ a round of combat

  /** The damage reported against everyone online since each came in. */
  function TakenOf(s: Instance): map<Uuid, int>
    requires forall id :: id in s.players ==> id in s.entered && s.entered[id] <= |s.outbound|
  {
    map id | id in s.players :: Taken(Since(s, id), id)
  }

  /** The combat of a tick, told from the attacks and casts, who is online as which character, and
      for each the damage taken and the casts made in its stay. */
  function CombatStory(attacks: seq<(Uuid, Uuid)>, casts: seq<Cast>, online: set<Uuid>, taken: map<Uuid, int>,
                       made: map<Uuid, nat>, damage: int): seq<Event>
  {
    AttackStory(attacks, taken, damage) + Refusals(Unpaid(made, [], casts)) + CastStory(Paid(made, [], casts), online)
  }

  function CombatLog(attacks: seq<(Uuid, Uuid)>, casts: seq<Cast>, r: Registry, made: map<Uuid, nat>, damage: int,
                     mapId: MapId): seq<PersistOp>
  {
    AttackLogs(attacks, r, damage, mapId) + CastLogs(Paid(made, [], casts), r, mapId)
  }

  lemma FightKeepsAccounts(s: Instance)
    requires Stays(s)
    ensures var fight := ResolveAttacks(s.players, s.attacks, s.tick);
            Accounted(fight.players, s.resolved, RegistryOf(s.players), s.resolved, [])
  {
    var fight := ResolveAttacks(s.players, s.attacks, s.tick);
    KeysAfterAttacks(s.players, s.attacks, s.tick);
    forall id | id in fight.players
      ensures AccountedFor(fight.players[id], s.resolved[id], s.players[id].character, MadeBefore(s.resolved, [], id))
    {
      assert StayHolds(s, id);
      AttacksHurt(s.players, s.attacks, s.tick, id);
    }
  }

  lemma ChargeKeepsRegistry(players: map<Uuid, Player>, casts: seq<Cast>, resolved: map<Uuid, nat>)
    ensures RegistryOf(ChargeCasts(players, casts, resolved).players) == RegistryOf(players)
  {
    ChargeKeepsCharacters(players, casts, resolved, players);
  }

  lemma StaysWound(s: Instance)
    requires Stays(s)
    ensures forall id :: id in s.players ==> id in s.entered && s.entered[id] <= |s.outbound|
    ensures Wounded(s.players, TakenOf(s))
  {
    forall id | id in s.players
      ensures s.entered[id] <= |s.outbound| && s.players[id].hp == Max(0, 100 - Taken(Since(s, id), id))
    {
      StayWounds(s, id);
    }
  }

  lemma StayWounds(s: Instance, id: Uuid)
    requires Stays(s) && id in s.players
    ensures id in s.entered && s.entered[id] <= |s.outbound|
    ensures s.players[id].hp == Max(0, 100 - Taken(Since(s, id), id))
  {
    assert StayHolds(s, id);
  }

  /** Both combat phases do exactly what the story says, and log exactly that. */
  lemma CombatTold(s: Instance)
    requires Stays(s)
    ensures forall id :: id in s.players ==> id in s.entered && s.entered[id] <= |s.outbound|
    ensures CombatEvents(s)
         == CombatStory(s.attacks, s.casts, s.players.Keys, TakenOf(s), s.resolved, AttackDamage(s.tick))
    ensures CombatOps(s)
         == CombatLog(s.attacks, s.casts, RegistryOf(s.players), s.resolved, AttackDamage(s.tick), s.mapId)
  {
    var r := RegistryOf(s.players);
    var fight := ResolveAttacks(s.players, s.attacks, s.tick);
    var charge := ChargeCasts(fight.players, s.casts, s.resolved);
    var paid := Paid(s.resolved, [], s.casts);
    StaysWound(s);
    AttacksTold(s.players, s.attacks, s.tick, TakenOf(s), r, s.mapId);
    FightKeepsAccounts(s);
    ChargePaysFirstTen(fight.players, s.casts, s.resolved, r, s.resolved, []);
    ChargeKeepsRegistry(fight.players, s.casts, s.resolved);
    PaidAreOnline(s.resolved, [], s.casts, r);
    SpellsTold(charge.players, paid, charge.spells, r, s.mapId);
    assert r.Keys == s.players.Keys;
  }

  /** The blows of the paid casts: those whose target is online. */
  function CastBlows(casts: seq<Cast>, online: set<Uuid>): seq<Blow>
    decreases |casts|
  {
    if casts == [] then []
    else
      var c := casts[0];
      (if c.target.Some? && c.target.value in online then [(c.caster, c.target.value, SkillDamage(c.skillId))] else [])
      + CastBlows(casts[1..], online)
  }

  lemma {:induction false} StoryShowsBlows(casts: seq<Cast>, online: set<Uuid>)
    ensures Pick(AsBlow, CastStory(casts, online)) == CastBlows(casts, online)
    decreases |casts|
  {
    if casts != [] {
      var head, rest := CastEvents(casts[0], online), CastStory(casts[1..], online);
      StoryShowsBlows(casts[1..], online);
      PickAppend(AsBlow, head, rest);
      assert head != [] ==> head[1..] == [];
    }
  }

  lemma CombatBlows(s: Instance)
    requires Stays(s)
    ensures Pick(AsBlow, CombatEvents(s))
         == Landed(s.attacks, s.players.Keys, AttackDamage(s.tick)) + CastBlows(Paid(s.resolved, [], s.casts), s.players.Keys)
  {
    var fight := ResolveAttacks(s.players, s.attacks, s.tick);
    var story := CastStory(Paid(s.resolved, [], s.casts), s.players.Keys);
    var refusals := Refusals(Unpaid(s.resolved, [], s.casts));
    CombatTold(s);
    StaysWound(s);
    AttacksTold(s.players, s.attacks, s.tick, TakenOf(s), RegistryOf(s.players), s.mapId);
    HitEventsShowBlows(fight.hits);
    HitsAreLanded(s.players, s.attacks, s.tick);
    PickAppend(AsBlow, HitEvents(fight.hits) + refusals, story);
    PickAppend(AsBlow, HitEvents(fight.hits), refusals);
    PickNothing(AsBlow, refusals);
    StoryShowsBlows(Paid(s.resolved, [], s.casts), s.players.Keys);
    assert Blows(fight.hits) + [] == Blows(fight.hits);
  }

  // --------------------------------------------- what each stay brings into the tick

  /** The session leaves somewhere in the batch. */
  predicate LogsOut(batch: seq<Incoming>, id: Uuid)
    decreases |batch|
  {
    batch != [] && ((batch[0].command.Logout? && batch[0].session == id) || LogsOut(batch[1..], id))
  }

  /** The casts resolved and the damage reported in a session's stay. */
  function Account(s: Instance, id: Uuid): (nat, int)
    requires id in s.resolved && id in s.entered && s.entered[id] <= |s.outbound|
  {
    (s.resolved[id], Taken(Since(s, id), id))
  }

  ghost predicate AccountIs(s: Instance, id: Uuid, account: (nat, int)) {
    id in s.resolved && id in s.entered && s.entered[id] <= |s.outbound| && Account(s, id) == account
  }

  lemma InputOneAccount(s: Instance, c: Incoming, id: Uuid)
    requires Stays(s) && id in InputOne(s, c).players
    ensures id in s.players ==> StayHolds(s, id) && AccountIs(InputOne(s, c), id, Account(s, id))
    ensures id !in s.players ==> AccountIs(InputOne(s, c), id, (0, 0))
  {
    var t := InputOne(s, c);
    var events := InputOneEmits(s, c);
    InputOnePlayers(s, c, id);
    if id in s.players {
      assert StayHolds(s, id);
      HarmlessKeepsAccount(s, t, id, events);
    } else {
      assert Since(t, id) == [];
    }
  }

  lemma HarmlessKeepsAccount(s: Instance, t: Instance, id: Uuid, events: seq<Event>)
    requires id in s.resolved && id in s.entered && s.entered[id] <= |s.outbound|
    requires id in t.resolved && id in t.entered && t.entered[id] == s.entered[id] && t.resolved[id] == s.resolved[id]
    requires t.outbound == s.outbound + events && Harmless(events)
    ensures AccountIs(t, id, Account(s, id))
  {
    HarmlessTally(events, id);
    assert Since(t, id) == Since(s, id) + events;
    TallyAppend(Since(s, id), events, id);
  }

  lemma {:induction false} InputAccount(s: Instance, batch: seq<Incoming>, id: Uuid)
    requires Stays(s) && id in Input(s, batch).players
    ensures id in s.players && !LogsOut(batch, id) ==> StayHolds(s, id) && AccountIs(Input(s, batch), id, Account(s, id))
    ensures id !in s.players || LogsOut(batch, id) ==> AccountIs(Input(s, batch), id, (0, 0))
    decreases |batch|
  {
    if batch == [] {
      assert StayHolds(s, id);
    } else {
      var t := InputOne(s, batch[0]);
      InputOneKeepsStays(s, batch[0]);
      InputOneKeys(s, batch[0]);
      InputAccount(t, batch[1..], id);
      if id in t.players {
        InputOneAccount(s, batch[0], id);
      }
    }
  }

  /** The stay a session is in when the tick comes goes on through its input. */
  predicate StaysOn(online: set<Uuid>, batch: seq<Incoming>, id: Uuid) {
    id in online && !LogsOut(batch, id)
  }

  /** Whoever stays on brings its account into the combat; whoever comes in brings none. */
  lemma AccountAfterInput(s: Instance, batch: seq<Incoming>, id: Uuid)
    requires Stays(s) && OnlyNpcTexts(s) && id in AfterInput(s, batch).players
    ensures StaysOn(s.players.Keys, batch, id) ==> StayHolds(s, id) && AccountIs(AfterInput(s, batch), id, Account(s, id))
    ensures !StaysOn(s.players.Keys, batch, id) ==> AccountIs(AfterInput(s, batch), id, (0, 0))
  {
    var ready := ScheduledPhase(Advance(s));
    SameStays(s, Advance(s));
    ScheduledPhaseKeepsStays(Advance(s));
    InputAccount(ready, batch, id);
    if id in s.players {
      DueTextsKeepAccount(s, ready, id);
    }
  }

  lemma DueTextsKeepAccount(s: Instance, ready: Instance, id: Uuid)
    requires Stays(s) && OnlyNpcTexts(s) && id in s.players && ready == ScheduledPhase(Advance(s))
    ensures StayHolds(s, id) && AccountIs(ready, id, Account(s, id))
  {
    assert StayHolds(s, id);
    assert s.outbound + [] == s.outbound;
    HarmlessKeepsAccount(s, ready, id, Due(s));
  }

  /** The casts made, and the damage taken, by everyone online once the batch is in. */
  function MadeInto(online: set<Uuid>, made: map<Uuid, nat>, batch: seq<Incoming>): map<Uuid, nat> {
    map id | id in KeysAfter(online, batch) :: if StaysOn(online, batch, id) && id in made then made[id] else 0
  }

  function TakenInto(online: set<Uuid>, taken: map<Uuid, int>, batch: seq<Incoming>): map<Uuid, int> {
    map id | id in KeysAfter(online, batch) :: if StaysOn(online, batch, id) && id in taken then taken[id] else 0
  }

  lemma MadeAfterInput(s: Instance, batch: seq<Incoming>)
    requires Stays(s) && OnlyNpcTexts(s)
    ensures AfterInput(s, batch).players.Keys == KeysAfter(s.players.Keys, batch)
    ensures AfterInput(s, batch).resolved == MadeInto(s.players.Keys, s.resolved, batch)
  {
    var a := AfterInput(s, batch);
    AfterInputKeepsStays(s, batch);
    InputKeys(ScheduledPhase(Advance(s)), batch);
    forall id | id in a.players
      ensures a.resolved[id] == if StaysOn(s.players.Keys, batch, id) then s.resolved[id] else 0
    {
      AccountAfterInput(s, batch, id);
    }
  }

  lemma TakenAfterInput(s: Instance, batch: seq<Incoming>)
    requires Stays(s) && OnlyNpcTexts(s)
    ensures forall id :: id in s.players ==> id in s.entered && s.entered[id] <= |s.outbound|
    ensures var a := AfterInput(s, batch);
            && (forall id :: id in a.players ==> id in a.entered && a.entered[id] <= |a.outbound|)
            && TakenOf(a) == TakenInto(s.players.Keys, TakenOf(s), batch)
  {
    var a := AfterInput(s, batch);
    AfterInputKeepsStays(s, batch);
    StaysWound(s);
    StaysWound(a);
    MadeAfterInput(s, batch);
    TakenMatches(s, a, batch);
  }

  lemma TakenMatches(s: Instance, a: Instance, batch: seq<Incoming>)
    requires Stays(s) && OnlyNpcTexts(s) && a == AfterInput(s, batch)
    requires a.players.Keys == KeysAfter(s.players.Keys, batch)
    requires forall id :: id in s.players ==> id in s.entered && s.entered[id] <= |s.outbound|
    requires forall id :: id in a.players ==> id in a.entered && a.entered[id] <= |a.outbound|
    ensures TakenOf(a) == TakenInto(s.players.Keys, TakenOf(s), batch)
  {
    forall id | id in a.players
      ensures TakenOf(a)[id] == if StaysOn(s.players.Keys, batch, id) then TakenOf(s)[id] else 0
    {
      AccountAfterInput(s, batch, id);
    }
  }

  // ------------------------------------------------------------------ a tick's combat

  lemma MovementKeepsCombat(a: Instance, order: seq<Uuid>)
    requires forall i :: 0 <= i < |order| ==> order[i] in a.players
    ensures AttackPhase(MovementPhase(a, order)).casts == a.casts
    ensures AttackPhase(MovementPhase(a, order)).resolved == a.resolved
    ensures AttackPhase(MovementPhase(a, order)).players == ResolveAttacks(a.players, a.attacks, a.tick).players
  {
  }

  /** A tick resolves every cast of its batch whose caster is online after it, once. */
  lemma TickResolves(s: Instance, batch: seq<Incoming>, o: Orders, t: Instance, id: Uuid)
    requires Stays(s) && OnlyNpcTexts(s) && s.casts == [] && s.attacks == [] && IsTick(s, batch, o, t) && id in t.players
    ensures id in t.resolved && id in MadeInto(s.players.Keys, s.resolved, batch)
    ensures t.resolved[id] == MadeInto(s.players.Keys, s.resolved, batch)[id] + CastsBy(Pick(AsCast, batch), id)
  {
    var a := AfterInput(s, batch);
    CastsAfterInput(s, batch);
    MadeAfterInput(s, batch);
    AfterInputKeepsStays(s, batch);
    TickKeys(s, batch, o);
    MovementKeepsCombat(a, o.moves);
    FightKeepsAccounts(a);
    var fought := ResolveAttacks(a.players, a.attacks, a.tick).players;
    assert AccountedFor(fought[id], a.resolved[id], a.players[id].character, MadeBefore(a.resolved, [], id));
    CastsCharge(fought, a.casts, a.resolved, id);
  }

  /** A tick's blows, all of them: the attacks whose two sides are online after the whole batch, then
      the paid casts whose target is. */
  lemma TickBlows(s: Instance, batch: seq<Incoming>, o: Orders, t: Instance)
    requires Stays(s) && OnlyNpcTexts(s) && s.casts == [] && s.attacks == [] && IsTick(s, batch, o, t)
    ensures s.outbound <= t.outbound
    ensures var online := KeysAfter(s.players.Keys, batch);
            var paid := Paid(MadeInto(s.players.Keys, s.resolved, batch), [], Pick(AsCast, batch));
            Pick(AsBlow, NewEvents(s, t))
            == Landed(Pick(AsAttack, batch), online, AttackDamage(NextTick(s.tick))) + CastBlows(paid, online)
  {
    var a := AfterInput(s, batch);
    TickPicksEvents(s, batch, o);
    CastsAfterInput(s, batch);
    MadeAfterInput(s, batch);
    AfterInputKeepsStays(s, batch);
    InputSchedules(ScheduledPhase(Advance(s)), batch);
    CombatBlows(a);
  }

  // ----------------------------------------------------------------- over whole runs

  /** Who is online after a series of batches. */
  function Online(batches: seq<seq<Incoming>>): set<Uuid> {
    KeysAfter({}, Flatten(batches))
  }

  /** The tick in which the session's present stay began. */
  function StayBegan(batches: seq<seq<Incoming>>, id: Uuid): (b: nat)
    ensures b <= |batches|
    decreases |batches|
  {
    if batches == [] then 0
    else
      var n := |batches| - 1;
      if StaysOn(Online(batches[..n]), batches[n], id) then StayBegan(batches[..n], id) else n
  }

  /** The CastSkill commands of a session in the ticks of its present stay. */
  function CastsInStay(batches: seq<seq<Incoming>>, id: Uuid): nat {
    CastsBy(Pick(AsCast, Flatten(batches[StayBegan(batches, id)..])), id)
  }

  lemma CastsInStaySnoc(batches: seq<seq<Incoming>>, batch: seq<Incoming>, id: Uuid)
    ensures CastsInStay(batches + [batch], id)
         == (if StaysOn(Online(batches), batch, id) then CastsInStay(batches, id) else 0) + CastsBy(Pick(AsCast, batch), id)
  {
    var all, n := batches + [batch], |batches|;
    assert all[..n] == batches && all[n] == batch;
    if StaysOn(Online(batches), batch, id) {
      var b := StayBegan(batches, id);
      assert all[b..] == batches[b..] + [batch];
      FlattenSnoc(batches[b..], batch);
      PickAppend(AsCast, Flatten(batches[b..]), batch);
      CastsByAppend(Pick(AsCast, Flatten(batches[b..])), Pick(AsCast, batch), id);
    } else {
      assert all[n..] == [] + [batch];
      FlattenSnoc([], batch);
      assert [] + batch == batch;
    }
  }

  lemma {:induction false} OnlineInHistory(states: seq<Instance>, batches: seq<seq<Incoming>>, orders: seq<Orders>, i: nat)
    requires IsHistory(states, batches, orders) && i < |states|
    ensures states[i].players.Keys == Online(batches[..i])
    decreases i
  {
    if i == 0 {
      assert batches[..0] == [];
    } else {
      OnlineInHistory(states, batches, orders, i - 1);
      RosterAt(states, batches, orders, i - 1);
      assert batches[..i] == batches[..i - 1] + [batches[i - 1]];
      OnlineSnoc(batches[..i - 1], batches[i - 1]);
    }
  }

  lemma RosterAt(states: seq<Instance>, batches: seq<seq<Incoming>>, orders: seq<Orders>, i: nat)
    requires IsHistory(states, batches, orders) && i < |batches|
    ensures states[i + 1].players.Keys == KeysAfter(states[i].players.Keys, batches[i])
  {
    assert TickAt(states, batches, orders, i);
    HistoryKeepsStays(states, batches, orders, i);
    RosterAfterTick(states[i], batches[i], orders[i], states[i + 1]);
  }

  lemma RosterAfterTick(s: Instance, batch: seq<Incoming>, o: Orders, t: Instance)
    requires Stays(s) && OnlyNpcTexts(s) && IsTick(s, batch, o, t)
    ensures t.players.Keys == KeysAfter(s.players.Keys, batch)
  {
    TickKeys(s, batch, o);
  }

  lemma OnlineSnoc(batches: seq<seq<Incoming>>, batch: seq<Incoming>)
    ensures Online(batches + [batch]) == KeysAfter(Online(batches), batch)
  {
    FlattenSnoc(batches, batch);
    KeysAfterAppend({}, Flatten(batches), batch);
  }

  lemma NothingFights(states: seq<Instance>, batches: seq<seq<Incoming>>, orders: seq<Orders>, i: nat)
    requires IsHistory(states, batches, orders) && i < |states|
    ensures states[i].attacks == [] && states[i].casts == []
  {
    if i > 0 {
      assert TickAt(states, batches, orders, i - 1);
      TickLeavesNothingPending(states[i - 1], batches[i - 1], orders[i - 1]);
    }
  }

  /** The tally of a stay is the number of CastSkill commands its session has sent in it. */
  lemma {:induction false} CastsAreCounted(states: seq<Instance>, batches: seq<seq<Incoming>>, orders: seq<Orders>, i: nat, id: Uuid)
    requires IsHistory(states, batches, orders) && i < |states| && id in states[i].players
    ensures id in states[i].resolved && states[i].resolved[id] == CastsInStay(batches[..i], id)
    decreases i
  {
    if i > 0 {
      if id in states[i - 1].players {
        CastsAreCounted(states, batches, orders, i - 1, id);
      }
      CountOneMore(states, batches, orders, i - 1, id);
    }
  }

  lemma HistoryResolves(states: seq<Instance>, batches: seq<seq<Incoming>>, orders: seq<Orders>, i: nat, id: Uuid)
    requires IsHistory(states, batches, orders) && i < |batches| && id in states[i + 1].players
    ensures var s, batch := states[i], batches[i];
            && id in states[i + 1].resolved && id in MadeInto(s.players.Keys, s.resolved, batch)
            && states[i + 1].resolved[id]
               == MadeInto(s.players.Keys, s.resolved, batch)[id] + CastsBy(Pick(AsCast, batch), id)
  {
    assert TickAt(states, batches, orders, i);
    HistoryKeepsStays(states, batches, orders, i);
    NothingFights(states, batches, orders, i);
    TickResolves(states[i], batches[i], orders[i], states[i + 1], id);
  }

  lemma CountOneMore(states: seq<Instance>, batches: seq<seq<Incoming>>, orders: seq<Orders>, i: nat, id: Uuid)
    requires IsHistory(states, batches, orders) && i < |batches| && id in states[i + 1].players
    requires id in states[i].players ==> id in states[i].resolved && states[i].resolved[id] == CastsInStay(batches[..i], id)
    ensures id in states[i + 1].resolved && states[i + 1].resolved[id] == CastsInStay(batches[..i + 1], id)
  {
    HistoryResolves(states, batches, orders, i, id);
    OnlineInHistory(states, batches, orders, i);
    assert batches[..i + 1] == batches[..i] + [batches[i]];
    CastsInStaySnoc(batches[..i], batches[i], id);
  }

  /** The skill budget, in every run: a session's mp is 100 less 10 for each of the first ten
      CastSkill commands it has sent in its stay, each later one was refused once, and re-sent
      EnterWorlds change nothing. */
  lemma SkillBudget(states: seq<Instance>, batches: seq<seq<Incoming>>, orders: seq<Orders>, i: nat, id: Uuid)
    requires IsHistory(states, batches, orders) && i < |states| && id in states[i].players
    ensures id in states[i].entered && states[i].entered[id] <= |states[i].outbound|
    ensures var n := CastsInStay(batches[..i], id);
            && states[i].players[id].mp == 100 - 10 * Min(10, n)
            && Refused(Since(states[i], id), id) == Max(0, n - 10)
  {
    CastsAreCounted(states, batches, orders, i, id);
    HealthAndManaFromEvents(states, batches, orders, i, id);
  }

  /** The casts everyone online has sent in their stays. */
  function CastsInStays(batches: seq<seq<Incoming>>): map<Uuid, nat> {
    map id | id in Online(batches) :: CastsInStay(batches, id)
  }

  lemma TalliesInHistory(states: seq<Instance>, batches: seq<seq<Incoming>>, orders: seq<Orders>, i: nat)
    requires IsHistory(states, batches, orders) && i < |states|
    ensures states[i].players.Keys == Online(batches[..i]) && states[i].resolved == CastsInStays(batches[..i])
  {
    OnlineInHistory(states, batches, orders, i);
    HistoryKeepsStays(states, batches, orders, i);
    forall id | id in states[i].players
      ensures states[i].resolved[id] == CastsInStay(batches[..i], id)
    {
      CastsAreCounted(states, batches, orders, i, id);
    }
  }

  /** In every run, every blow of every tick comes from its commands: the attacks between sessions
      online after the batch, then the casts that are among the first ten of their caster's stay. */
  lemma EveryBlowFromCommands(states: seq<Instance>, batches: seq<seq<Incoming>>, orders: seq<Orders>, i: nat)
    requires IsHistory(states, batches, orders) && i < |batches|
    ensures states[i].outbound <= states[i + 1].outbound
    ensures var before, batch := Online(batches[..i]), batches[i];
            var online := KeysAfter(before, batch);
            Pick(AsBlow, NewEvents(states[i], states[i + 1]))
            == Landed(Pick(AsAttack, batch), online, AttackDamage(NextTick(states[i].tick)))
               + CastBlows(Paid(MadeInto(before, CastsInStays(batches[..i]), batch), [], Pick(AsCast, batch)), online)
  {
    assert TickAt(states, batches, orders, i);
    HistoryKeepsStays(states, batches, orders, i);
    NothingFights(states, batches, orders, i);
    TalliesInHistory(states, batches, orders, i);
    TickBlows(states[i], batches[i], orders[i], states[i + 1]);
  }

  // ------------------------------------------------- the whole tick, from commands

  /** Which character each session plays after a batch. */
  function RegisteredAll(r: Registry, batch: seq<Incoming>): Registry
    decreases |batch|
  {
    if batch == [] then r else RegisteredAll(Registered(r, batch[0]), batch[1..])
  }

  lemma {:induction false} InputRegistry(s: Instance, batch: seq<Incoming>)
    ensures RegistryOf(Input(s, batch).players) == RegisteredAll(RegistryOf(s.players), batch)
    decreases |batch|
  {
    if batch != [] {
      RosterChanges(s, batch[0]);
      InputRegistry(InputOne(s, batch[0]), batch[1..]);
    }
  }

  /** The positions reported: where each session's own commands have put it. */
  function Reports(places: map<Uuid, (int, int)>, batch: seq<Incoming>, order: seq<Uuid>): (events: seq<Event>)
    ensures |events| == |order|
  {
    seq(|order|, i requires 0 <= i < |order| =>
      var at := Stand(if order[i] in places then Some(places[order[i]]) else None, batch, order[i]).GetOr((0, 0));
      Position(order[i], at.0, at.1))
  }

  function PlacesOf(players: map<Uuid, Player>): map<Uuid, (int, int)> {
    map id | id in players :: (players[id].x, players[id].y)
  }

  lemma PositionsAreReports(s: Instance, batch: seq<Incoming>, order: seq<Uuid>)
    requires forall i :: 0 <= i < |order| ==> order[i] in AfterInput(s, batch).players
    ensures Positions(AfterInput(s, batch).players, order) == Reports(PlacesOf(s.players), batch, order)
  {
    forall i | 0 <= i < |order|
      ensures Positions(AfterInput(s, batch).players, order)[i] == Reports(PlacesOf(s.players), batch, order)[i]
    {
      InputPlaces(ScheduledPhase(Advance(s)), batch, order[i]);
    }
  }

  lemma CombatAfterInputTold(s: Instance, batch: seq<Incoming>)
    requires Stays(s) && OnlyNpcTexts(s) && s.casts == [] && s.attacks == []
    ensures forall id :: id in s.players ==> id in s.entered && s.entered[id] <= |s.outbound|
    ensures var a := AfterInput(s, batch);
            var made := MadeInto(s.players.Keys, s.resolved, batch);
            var taken := TakenInto(s.players.Keys, TakenOf(s), batch);
            var damage := AttackDamage(NextTick(s.tick));
            && a.players.Keys == KeysAfter(s.players.Keys, batch)
            && CombatEvents(a)
               == CombatStory(Pick(AsAttack, batch), Pick(AsCast, batch), KeysAfter(s.players.Keys, batch), taken, made, damage)
            && CombatOps(a)
               == CombatLog(Pick(AsAttack, batch), Pick(AsCast, batch), RegisteredAll(RegistryOf(s.players), batch), made, damage, s.mapId)
  {
    CastsAfterInput(s, batch);
    MadeAfterInput(s, batch);
    TakenAfterInput(s, batch);
    AfterInputKeepsStays(s, batch);
    InputRegistry(ScheduledPhase(Advance(s)), batch);
    InputSaves(ScheduledPhase(Advance(s)), batch);
    InputSchedules(ScheduledPhase(Advance(s)), batch);
    CombatTold(AfterInput(s, batch));
  }

  /** The event stream of every tick of every run, whole and in order, told from the batch, the
      texts due, and for each session where it stood, the damage reported against it and the
      CastSkill commands it has sent in its stay. */
  lemma EveryTickFromCommands(states: seq<Instance>, batches: seq<seq<Incoming>>, orders: seq<Orders>, i: nat)
    requires IsHistory(states, batches, orders) && i < |batches|
    ensures forall id :: id in states[i].players ==> id in states[i].entered && states[i].entered[id] <= |states[i].outbound|
    ensures var s, batch, o, before := states[i], batches[i], orders[i], Online(batches[..i]);
            var online, tick := KeysAfter(before, batch), NextTick(s.tick);
            var made := MadeInto(before, CastsInStays(batches[..i]), batch);
            var taken := TakenInto(before, TakenOf(s), batch);
            states[i + 1].outbound
            == s.outbound + Due(s) + Pick(AsReply, batch) + Reports(PlacesOf(s.players), batch, o.moves)
               + CombatStory(Pick(AsAttack, batch), Pick(AsCast, batch), online, taken, made, AttackDamage(tick))
               + AiEvents(tick, online != {}, o.npc) + AoiEvents(tick, |online|, o.views)
  {
    EveryTickInOrder(states, batches, orders, i);
    HistoryKeepsStays(states, batches, orders, i);
    NothingFights(states, batches, orders, i);
    TalliesInHistory(states, batches, orders, i);
    PositionsAreReports(states[i], batches[i], orders[i].moves);
    CombatAfterInputTold(states[i], batches[i]);
    assert |AfterInput(states[i], batches[i]).players| == |AfterInput(states[i], batches[i]).players.Keys|;
  }

  /** And what every tick asks to persist: told from the batch, who plays which character, and the
      casts sent in each stay. */
  lemma EveryLogFromCommands(states: seq<Instance>, batches: seq<seq<Incoming>>, orders: seq<Orders>, i: nat)
    requires IsHistory(states, batches, orders) && i < |batches|
    ensures var s, batch, r := states[i], batches[i], RegistryOf(states[i].players);
            var made := MadeInto(Online(batches[..i]), CastsInStays(batches[..i]), batch);
            states[i + 1].persist
            == s.persist + Saves(r, batch, s.mapId)
               + CombatLog(Pick(AsAttack, batch), Pick(AsCast, batch), RegisteredAll(r, batch), made, AttackDamage(NextTick(s.tick)), s.mapId)
               + InventoryOps(Changes(r, batch), s.mapId)
  {
    EveryTickInOrder(states, batches, orders, i);
    HistoryKeepsStays(states, batches, orders, i);
    NothingFights(states, batches, orders, i);
    TalliesInHistory(states, batches, orders, i);
    CombatAfterInputTold(states[i], batches[i]);
  }
}
