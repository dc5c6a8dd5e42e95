/** One map instance of crates/map_server, as functions of its state: what a tick does, phase by
    phase, and what its event and persistence streams say about the players. */
module MapServer {
  import opened Wrappers
  import opened Commands

  // --------------------------------------------------------------------- state

  const U64_END: nat := 0x1_0000_0000_0000_0000
  const I32_MIN: int := -0x8000_0000

  datatype Text =
    | Plain(message: string)
    | WhisperTo(toCharacter: string, whispered: string)
    | GuildText(guildMessage: string)
    | NpcText(npc: Uuid)
    | HeartbeatAck
    | Defeated
    | NotEnoughMana
    | SkillCast(skillId: int)
    | NpcAiTick
    | AoiUpdate(population: nat)

  datatype Event =
    | Say(session: Uuid, text: Text)
    | Position(mover: Uuid, x: int, y: int)
    | CombatResult(attacker: Uuid, defender: Uuid, damage: int)

  datatype Reason = PickedUp | Dropped(slot: int, quantity: int) | Used(usedSlot: int)

  datatype PersistOp =
    | SavePosition(character: Uuid, onMap: MapId, x: int, y: int)
    | SaveInventory(owner: Uuid, atMap: MapId, reason: Reason)
    | SaveCombatLog(attacker: Uuid, defender: Uuid, inMap: MapId, damage: int)

  datatype Incoming = Incoming(session: Uuid, character: Option<Uuid>, command: ClientCommand)

  datatype Player = Player(character: Uuid, x: int, y: int, hp: int, mp: int)

  datatype Cast = Cast(caster: Uuid, skillId: int, target: Option<Uuid>)

  datatype Instance = Instance(
    mapId: MapId,
    tick: nat,
    players: map<Uuid, Player>,
    scheduled: map<nat, seq<Event>>,
    attacks: seq<(Uuid, Uuid)>,
    casts: seq<Cast>,
    inventory: seq<(Uuid, Reason)>,
    outbound: seq<Event>,
    persist: seq<PersistOp>,
    // history of each stay: where in the event stream it began, and the casts resolved since
    entered: map<Uuid, nat>,
    resolved: map<Uuid, nat>)

  function Emit(s: Instance, events: seq<Event>, ops: seq<PersistOp>): Instance {
    s.(outbound := s.outbound + events, persist := s.persist + ops)
  }

  // --------------------------------------------------------------- phase: input

  function CharacterOf(s: Instance, id: Uuid): Uuid {
    if id in s.players then s.players[id].character else id
  }

  function Enter(s: Instance, id: Uuid, character: Uuid): Instance {
    if id in s.players then s.(players := s.players[id := s.players[id].(character := character)])
    else s.(players := s.players[id := Player(character, 100, 100, 100, 100)],
            entered := s.entered[id := |s.outbound|],
            resolved := s.resolved[id := 0])
  }

  function Leave(s: Instance, id: Uuid): Instance {
    s.(players := s.players - {id}, entered := s.entered - {id}, resolved := s.resolved - {id})
  }

  function Schedule(s: Instance, event: Event): Instance {
    var at := Min(s.tick + 1, U64_END - 1);
    s.(scheduled := s.scheduled[at := (if at in s.scheduled then s.scheduled[at] else []) + [event]])
  }

  function Note(s: Instance, id: Uuid, reason: Reason): Instance {
    s.(inventory := s.inventory + [(CharacterOf(s, id), reason)])
  }

  function InputOne(s: Instance, c: Incoming): Instance {
    var id := c.session;
    match c.command
    case EnterWorld => Enter(s, id, c.character.GetOr(id))
    case Move(x, y, _) =>
      if id in s.players
      then Emit(s.(players := s.players[id := s.players[id].(x := x, y := y)]),
                [], [SavePosition(s.players[id].character, s.mapId, x, y)])
      else s
    case Chat(message) => Emit(s, [Say(id, Plain(message))], [])
    case Whisper(to, message) => Emit(s, [Say(id, WhisperTo(to, message))], [])
    case GuildChat(message) => Emit(s, [Say(id, GuildText(message))], [])
    case Attack(target) => s.(attacks := s.attacks + [(id, target)])
    case CastSkill(skill, target) => s.(casts := s.casts + [Cast(id, skill, target)])
    case PickupItem(_) => Note(s, id, PickedUp)
    case DropItem(slot, quantity) => Note(s, id, Dropped(slot, quantity))
    case UseItem(slot) => Note(s, id, Used(slot))
    case NpcInteraction(npc) => Schedule(s, Say(id, NpcText(npc)))
    case Heartbeat => Emit(s, [Say(id, HeartbeatAck)], [])
    case Logout => Leave(s, id)
    case _ => s
  }

  function Input(s: Instance, batch: seq<Incoming>): Instance
    decreases |batch|
  {
    if batch == [] then s else Input(InputOne(s, batch[0]), batch[1..])
  }

  // -------------------------------------------------------------- phase: combat

  /** One attack that found both sides present. */
  datatype Hit = Hit(attacker: Uuid, defender: Uuid, attackerCharacter: Uuid, defenderCharacter: Uuid, damage: int, defeated: bool)

  function Hurt(p: Player, damage: int): Player {
    p.(hp := Max(p.hp - damage, 0))
  }

  function AttackDamage(tick: nat): int {
    5 + tick % 4
  }

  /** The damage of an attack goes round 5, 6, 7, 8 as ticks pass. */
  lemma AttackDamageIs(fours: nat, rest: nat)
    requires rest < 4
    ensures AttackDamage(4 * fours + rest) == [5, 6, 7, 8][rest]
  {
    assert (4 * fours + rest) % 4 == rest;
  }

  datatype Fight = Fight(players: map<Uuid, Player>, hits: seq<Hit>)

  function ResolveAttacks(players: map<Uuid, Player>, attacks: seq<(Uuid, Uuid)>, tick: nat): Fight
    decreases |attacks|
  {
    if attacks == [] then Fight(players, [])
    else
      var (a, d) := attacks[0];
      if a !in players || d !in players then ResolveAttacks(players, attacks[1..], tick)
      else
        var hurt := Hurt(players[d], AttackDamage(tick));
        var later := ResolveAttacks(players[d := hurt], attacks[1..], tick);
        Fight(later.players,
              [Hit(a, d, players[a].character, players[d].character, AttackDamage(tick), hurt.hp == 0)] + later.hits)
  }

  function HitEvents(hits: seq<Hit>): seq<Event>
    decreases |hits|
  {
    if hits == [] then []
    else [CombatResult(hits[0].attacker, hits[0].defender, hits[0].damage)]
         + (if hits[0].defeated then [Say(hits[0].defender, Defeated)] else []) + HitEvents(hits[1..])
  }

  function HitOps(hits: seq<Hit>, mapId: MapId): seq<PersistOp>
    decreases |hits|
  {
    if hits == [] then []
    else [SaveCombatLog(hits[0].attackerCharacter, hits[0].defenderCharacter, mapId, hits[0].damage)]
         + HitOps(hits[1..], mapId)
  }

  function AttackPhase(s: Instance): Instance {
    var fight := ResolveAttacks(s.players, s.attacks, s.tick);
    Emit(s.(players := fight.players, attacks := []), HitEvents(fight.hits), HitOps(fight.hits, s.mapId))
  }

  // ------------------------------------------------------------- phase: casting

  /** One cast paid for. */
  datatype Spell = Spell(caster: Uuid, character: Uuid, skillId: int, target: Option<Uuid>)

  datatype Charge = Charge(players: map<Uuid, Player>, refusals: seq<Event>, spells: seq<Spell>, resolved: map<Uuid, nat>)

  function Increment(m: map<Uuid, nat>, id: Uuid): map<Uuid, nat> {
    m[id := (if id in m then m[id] else 0) + 1]
  }

  function ChargeCasts(players: map<Uuid, Player>, casts: seq<Cast>, resolved: map<Uuid, nat>): Charge
    decreases |casts|
  {
    if casts == [] then Charge(players, [], [], resolved)
    else
      var c := casts[0];
      if c.caster !in players then ChargeCasts(players, casts[1..], resolved)
      else
        var p := players[c.caster];
        var counted := Increment(resolved, c.caster);
        if p.mp < 10 then
          var later := ChargeCasts(players, casts[1..], counted);
          later.(refusals := [Say(c.caster, NotEnoughMana)] + later.refusals)
        else
          var later := ChargeCasts(players[c.caster := p.(mp := p.mp - 10)], casts[1..], counted);
          later.(spells := [Spell(c.caster, p.character, c.skillId, c.target)] + later.spells)
  }

  /** The absolute value as 32-bit wrapping arithmetic gives it: the least value is its own. */
  function WrappingAbs(n: int): int {
    if n == I32_MIN then n else if n < 0 then -n else n
  }

  /** The remainder that takes the sign of the dividend. */
  function Remainder(n: int, m: nat): int
    requires m > 0
  {
    if n >= 0 then n % m else -((-n) % m)
  }

  function SkillDamage(skillId: int): (d: int)
    ensures if skillId == -0x8000_0000 then d == 8 else 10 <= d <= 16
  {
    10 + Remainder(WrappingAbs(skillId), 7)
  }

  /** Which one: the distance of the id from the multiple of seven below it, or above it if it is
      negative, over a base of ten. */
  lemma SkillDamageIs(sevens: nat, rest: nat)
    requires rest < 7 && 7 * sevens + rest <= 0x7FFF_FFFF
    ensures SkillDamage(7 * sevens + rest) == 10 + rest && SkillDamage(-(7 * sevens + rest)) == 10 + rest
  {
    var id := 7 * sevens + rest;
    assert id % 7 == rest;
    assert Remainder(id, 7) == rest;
  }

  lemma SkillDamageRepeats(skillId: int)
    requires skillId >= 0
    ensures skillId < 7 ==> SkillDamage(skillId) == 10 + skillId
    ensures SkillDamage(skillId + 7) == SkillDamage(skillId)
    ensures skillId <= 0x7FFF_FFFF ==> SkillDamage(-skillId) == SkillDamage(skillId)
  {
  }

  datatype Effect = Effect(players: map<Uuid, Player>, events: seq<Event>, ops: seq<PersistOp>)

  function ApplySpells(players: map<Uuid, Player>, spells: seq<Spell>, mapId: MapId): Effect
    decreases |spells|
  {
    if spells == [] then Effect(players, [], [])
    else
      var c := spells[0];
      if c.target.None? then
        var later := ApplySpells(players, spells[1..], mapId);
        later.(events := [Say(c.caster, SkillCast(c.skillId))] + later.events)
      else if c.target.value !in players then ApplySpells(players, spells[1..], mapId)
      else
        var t := c.target.value;
        var later := ApplySpells(players[t := Hurt(players[t], SkillDamage(c.skillId))], spells[1..], mapId);
        Effect(later.players,
               [CombatResult(c.caster, t, SkillDamage(c.skillId))] + later.events,
               [SaveCombatLog(c.character, players[t].character, mapId, SkillDamage(c.skillId))] + later.ops)
  }

  function ChargePhase(s: Instance): Instance {
    var charge := ChargeCasts(s.players, s.casts, s.resolved);
    Emit(s.(players := charge.players, casts := [], resolved := charge.resolved), charge.refusals, [])
  }

  function SpellPhase(s: Instance, spells: seq<Spell>): Instance {
    var effect := ApplySpells(s.players, spells, s.mapId);
    Emit(s.(players := effect.players), effect.events, effect.ops)
  }

  function CastPhase(s: Instance): Instance {
    SpellPhase(ChargePhase(s), ChargeCasts(s.players, s.casts, s.resolved).spells)
  }

  // -------------------------------------------------------------- other phases

  /** The hash map's iteration orders are arbitrary: a tick is told which ones it met. */
  datatype Orders = Orders(moves: seq<Uuid>, npc: Uuid, views: seq<Uuid>)

  ghost predicate IsListing(order: seq<Uuid>, keys: set<Uuid>) {
    && (forall i :: 0 <= i < |order| ==> order[i] in keys)
    && (forall i, j :: 0 <= i < j < |order| ==> order[i] != order[j])
    && |order| == |keys|
  }

  ghost predicate ValidOrders(o: Orders, keys: set<Uuid>) {
    IsListing(o.moves, keys) && (keys != {} ==> o.npc in keys) && IsListing(o.views, keys)
  }

  function ScheduledPhase(s: Instance): Instance {
    if s.tick in s.scheduled
    then Emit(s.(scheduled := s.scheduled - {s.tick}), s.scheduled[s.tick], [])
    else s
  }

  function Positions(players: map<Uuid, Player>, order: seq<Uuid>): (events: seq<Event>)
    requires forall i :: 0 <= i < |order| ==> order[i] in players
    ensures |events| == |order|
    ensures forall i :: 0 <= i < |order| ==> events[i] == Position(order[i], players[order[i]].x, players[order[i]].y)
  {
    seq(|order|, i requires 0 <= i < |order| => Position(order[i], players[order[i]].x, players[order[i]].y))
  }

  function MovementPhase(s: Instance, order: seq<Uuid>): Instance
    requires forall i :: 0 <= i < |order| ==> order[i] in s.players
  {
    Emit(s, Positions(s.players, order), [])
  }

  function AiPhase(s: Instance, npc: Uuid): Instance {
    if s.tick % 100 == 0 && s.players.Keys != {} then Emit(s, [Say(npc, NpcAiTick)], []) else s
  }

  function Views(order: seq<Uuid>, population: nat): (events: seq<Event>)
    ensures |events| == |order| && forall i :: 0 <= i < |order| ==> events[i] == Say(order[i], AoiUpdate(population))
  {
    seq(|order|, i requires 0 <= i < |order| => Say(order[i], AoiUpdate(population)))
  }

  function AoiPhase(s: Instance, order: seq<Uuid>): Instance {
    if s.tick % 40 == 0 then Emit(s, Views(order, |s.players|), []) else s
  }

  function InventoryOps(changes: seq<(Uuid, Reason)>, mapId: MapId): (ops: seq<PersistOp>)
    ensures |ops| == |changes|
    ensures forall i :: 0 <= i < |changes| ==> ops[i] == SaveInventory(changes[i].0, mapId, changes[i].1)
  {
    seq(|changes|, i requires 0 <= i < |changes| => SaveInventory(changes[i].0, mapId, changes[i].1))
  }

  function InventoryPhase(s: Instance): Instance {
    Emit(s.(inventory := []), [], InventoryOps(s.inventory, s.mapId))
  }

  // ------------------------------------------------------------------- one tick

  /** The tick counter's wrapping increment. */
  function NextTick(tick: nat): nat {
    if tick + 1 >= U64_END then 0 else tick + 1
  }

  function Advance(s: Instance): Instance {
    s.(tick := NextTick(s.tick))
  }

  /** Every index leads to the one above it but the greatest of 64 bits, which leads to 0. */
  lemma NextTickIs(tick: nat)
    requires tick <= 0xFFFF_FFFF_FFFF_FFFF
    ensures tick < 0xFFFF_FFFF_FFFF_FFFF ==> NextTick(tick) == tick + 1
    ensures NextTick(0xFFFF_FFFF_FFFF_FFFF) == 0
  {
  }

  /** The state once the tick's whole input has been taken in. */
  function AfterInput(s: Instance, batch: seq<Incoming>): Instance {
    Input(ScheduledPhase(Advance(s)), batch)
  }

  function Tick(s: Instance, batch: seq<Incoming>, o: Orders): Instance
    requires forall i :: 0 <= i < |o.moves| ==> o.moves[i] in AfterInput(s, batch).players
  {
    var moved := MovementPhase(AfterInput(s, batch), o.moves);
    var fought := CastPhase(AttackPhase(moved));
    InventoryPhase(AoiPhase(AiPhase(fought, o.npc), o.views))
  }
}
