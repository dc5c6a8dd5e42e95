/** Client commands, the per-state command rules of crates/application, and the phase machine
    the gateway advances as it enqueues them. */
module Commands {
  import opened Wrappers

  type Uuid = nat
  type MapId = int

  datatype CharacterClass = Warrior | Mage | Archer

  datatype CreatePayload = CreatePayload(name: string, characterClass: CharacterClass, look: seq<Byte>, stats: seq<int>)

  datatype ClientCommand =
    | Login(username: string, password: string, clientVersion: string)
    | CharacterList
    | CharacterCreate(payload: CreatePayload)
    | CharacterDelete(deleted: Uuid)
    | CharacterSelect(selected: Uuid)
    | EnterWorld
    | Move(x: int, y: int, run: bool)
    | Attack(attacked: Uuid)
    | CastSkill(skillId: int, target: Option<Uuid>)
    | PickupItem(entity: Uuid)
    | DropItem(slot: int, quantity: int)
    | UseItem(used: int)
    | NpcInteraction(npc: Uuid)
    | Chat(message: string)
    | Whisper(toCharacter: string, whispered: string)
    | GuildChat(guildMessage: string)
    | Heartbeat
    | Logout

  datatype SessionState = Connecting | Authenticated | CharacterListing | Playing | Ended

  datatype Phase = PreAuth | PostAuth | InCharacterList | InWorld | Closed

  function AsDomainState(phase: Phase): SessionState {
    match phase
    case PreAuth => Connecting
    case PostAuth => Authenticated
    case InCharacterList => CharacterListing
    case InWorld => Playing
    case Closed => Ended
  }

  // ------------------------------------------------------------- command rules

  predicate IsCharacterCommand(c: ClientCommand) {
    c.CharacterList? || c.CharacterCreate? || c.CharacterDelete? || c.CharacterSelect?
  }

  predicate IsGameplay(c: ClientCommand) {
    || c.Move? || c.Attack? || c.CastSkill? || c.PickupItem? || c.DropItem? || c.UseItem?
    || c.NpcInteraction? || c.Chat? || c.Whisper? || c.GuildChat?
  }

  predicate AllowedIn(state: SessionState, c: ClientCommand) {
    match state
    case Connecting => c.Login? || c.Heartbeat?
    case Authenticated => IsCharacterCommand(c) || c.Logout? || c.Heartbeat?
    case CharacterListing => IsCharacterCommand(c) || c.EnterWorld? || c.Logout? || c.Heartbeat?
    case Playing => c.EnterWorld? || IsGameplay(c) || c.Heartbeat? || c.Logout?
    case Ended => false
  }

  /** The characters Unicode calls white space, which trimming removes. */
  predicate IsWhitespace(c: char) {
    var n := c as int;
    || 9 <= n <= 13 || n == 32 || n == 0x85 || n == 0xA0 || n == 0x1680 || 0x2000 <= n <= 0x200A
    || n == 0x2028 || n == 0x2029 || n == 0x202F || n == 0x205F || n == 0x3000
  }

  predicate IsBlank(s: string) {
    forall i :: 0 <= i < |s| ==> IsWhitespace(s[i])
  }

  predicate PayloadOk(c: ClientCommand) {
    match c
    case Login(username, password, _) => !IsBlank(username) && password != ""
    case Chat(message) => !IsBlank(message)
    case GuildChat(message) => !IsBlank(message)
    case _ => true
  }

  datatype ValidationError = InvalidSessionState(state: SessionState, command: ClientCommand) | InvalidPayload(command: ClientCommand)

  function Validate(state: SessionState, c: ClientCommand): Result<(), ValidationError> {
    if !AllowedIn(state, c) then Err(InvalidSessionState(state, c))
    else if !PayloadOk(c) then Err(InvalidPayload(c))
    else Ok(())
  }

  predicate Accepts(phase: Phase, c: ClientCommand) {
    Validate(AsDomainState(phase), c).Ok?
  }

  function NextPhase(phase: Phase, c: ClientCommand): Phase {
    if phase == PreAuth && c.Login? then PostAuth
    else if phase == PostAuth && IsCharacterCommand(c) then InCharacterList
    else if phase == InCharacterList && c.EnterWorld? then InWorld
    else if c.Logout? then Closed
    else phase
  }

  /** The phase after a sequence of commands, if every one of them is accepted. */
  function Run(phase: Phase, cmds: seq<ClientCommand>): Option<Phase>
    decreases |cmds|
  {
    if cmds == [] then Some(phase)
    else if Accepts(phase, cmds[0]) then Run(NextPhase(phase, cmds[0]), cmds[1..])
    else None
  }

  /** The commands a connection enqueues: rejected ones are dropped and leave the phase alone. */
  function Offer(phase: Phase, cmds: seq<ClientCommand>): seq<ClientCommand>
    decreases |cmds|
  {
    if cmds == [] then []
    else if Accepts(phase, cmds[0]) then [cmds[0]] + Offer(NextPhase(phase, cmds[0]), cmds[1..])
    else Offer(phase, cmds[1..])
  }

  lemma {:induction false} RunSnoc(phase: Phase, cmds: seq<ClientCommand>, c: ClientCommand)
    ensures Run(phase, cmds + [c])
         == match Run(phase, cmds)
            case None => None
            case Some(p) => if Accepts(p, c) then Some(NextPhase(p, c)) else None
    decreases |cmds|
  {
    if cmds != [] {
      assert (cmds + [c])[1..] == cmds[1..] + [c];
      RunSnoc(NextPhase(phase, cmds[0]), cmds[1..], c);
    }
  }

  lemma {:induction false} OfferIsAccepted(phase: Phase, cmds: seq<ClientCommand>)
    ensures Run(phase, Offer(phase, cmds)).Some? && |Offer(phase, cmds)| <= |cmds|
    ensures Offer(phase, cmds) == cmds <==> Run(phase, cmds).Some?
    decreases |cmds|
  {
    if cmds != [] {
      if Accepts(phase, cmds[0]) {
        var tail := Offer(NextPhase(phase, cmds[0]), cmds[1..]);
        OfferIsAccepted(NextPhase(phase, cmds[0]), cmds[1..]);
        assert ([cmds[0]] + tail)[1..] == tail && [cmds[0]] + cmds[1..] == cmds;
      } else {
        OfferIsAccepted(phase, cmds[1..]);
      }
    }
  }

  lemma {:induction false} OfferSnoc(phase: Phase, cmds: seq<ClientCommand>, c: ClientCommand)
    ensures var before := Offer(phase, cmds);
            Offer(phase, cmds + [c]) == before + if Run(phase, before + [c]).Some? then [c] else []
    decreases |cmds|
  {
    if cmds == [] {
      assert [] + [c] == [c] && [c][1..] == [];
    } else {
      assert (cmds + [c])[1..] == cmds[1..] + [c];
      if Accepts(phase, cmds[0]) {
        var next := NextPhase(phase, cmds[0]);
        var later := Offer(next, cmds[1..]);
        OfferSnoc(next, cmds[1..], c);
        assert ([cmds[0]] + later + [c])[1..] == later + [c];
      } else {
        OfferSnoc(phase, cmds[1..], c);
      }
    }
  }

  // ---------------------------------------------------------- accepted language

  datatype Kind = KLogin | KCharacter | KEnter | KGameplay | KHeartbeat | KLogout

  function KindOf(c: ClientCommand): Kind {
    match c
    case Login(_, _, _) => KLogin
    case CharacterList => KCharacter
    case CharacterCreate(_) => KCharacter
    case CharacterDelete(_) => KCharacter
    case CharacterSelect(_) => KCharacter
    case EnterWorld => KEnter
    case Heartbeat => KHeartbeat
    case Logout => KLogout
    case _ => KGameplay
  }

  predicate All(w: seq<Kind>, allowed: set<Kind>) {
    forall i :: 0 <= i < |w| ==> w[i] in allowed
  }

  /** A session's life in order: Heartbeat* Login Heartbeat* C(C|Heartbeat)* EnterWorld
      (gameplay|EnterWorld|Heartbeat)*, stopped anywhere, and after Login perhaps ended by a Logout. */
  datatype Script = Script(
    idle: seq<Kind>, login: bool, waiting: seq<Kind>, choosing: seq<Kind>, enter: bool, playing: seq<Kind>, logout: bool)
  {
    function Spell(): seq<Kind> {
      idle + (if login then [KLogin] else []) + waiting + choosing
      + (if enter then [KEnter] else []) + playing + (if logout then [KLogout] else [])
    }

    predicate Valid() {
      && All(idle, {KHeartbeat})
      && All(waiting, {KHeartbeat})
      && All(choosing, {KCharacter, KHeartbeat}) && (choosing != [] ==> choosing[0] == KCharacter)
      && All(playing, {KGameplay, KEnter, KHeartbeat})
      && (!login ==> waiting == [] && choosing == [] && !logout)
      && (choosing == [] ==> !enter)
      && (!enter ==> playing == [])
    }

    function EndPhase(): Phase {
      if logout then Closed else if enter then InWorld
      else if choosing != [] then InCharacterList else if login then PostAuth else PreAuth
    }
  }

  ghost predicate InLanguage(w: seq<Kind>) {
    exists s: Script :: s.Valid() && s.Spell() == w
  }

  function Kinds(cmds: seq<ClientCommand>): (w: seq<Kind>)
    ensures |w| == |cmds|
  {
    seq(|cmds|, i requires 0 <= i < |cmds| => KindOf(cmds[i]))
  }

  predicate KindAllowed(phase: Phase, k: Kind) {
    match phase
    case PreAuth => k in {KLogin, KHeartbeat}
    case PostAuth => k in {KCharacter, KHeartbeat, KLogout}
    case InCharacterList => k in {KCharacter, KEnter, KHeartbeat, KLogout}
    case InWorld => k in {KEnter, KGameplay, KHeartbeat, KLogout}
    case Closed => false
  }

  /** The script with one more step at its end. */
  function Extend(s: Script, k: Kind): Script {
    if k == KLogout then s.(logout := true)
    else match s.EndPhase()
    case PreAuth => if k == KLogin then s.(login := true) else s.(idle := s.idle + [k])
    case PostAuth => if k == KCharacter then s.(choosing := [k]) else s.(waiting := s.waiting + [k])
    case InCharacterList => if k == KEnter then s.(enter := true) else s.(choosing := s.choosing + [k])
    case _ => s.(playing := s.playing + [k])
  }

  lemma ExtendKeepsValid(s: Script, k: Kind)
    requires s.Valid() && KindAllowed(s.EndPhase(), k)
    ensures Extend(s, k).Valid()
  {
  }

  lemma ExtendSpells(s: Script, k: Kind)
    requires s.Valid() && KindAllowed(s.EndPhase(), k)
    ensures Extend(s, k).Spell() == s.Spell() + [k]
  {
  }

  lemma ExtendPhase(s: Script, c: ClientCommand)
    requires s.Valid() && KindAllowed(s.EndPhase(), KindOf(c))
    ensures Extend(s, KindOf(c)).EndPhase() == NextPhase(s.EndPhase(), c)
  {
  }

  /** Undo the last step of a non-empty script. */
  lemma Retract(s: Script) returns (r: Script, k: Kind)
    requires s.Valid() && s.Spell() != []
    ensures r.Valid() && KindAllowed(r.EndPhase(), k) && Extend(r, k) == s
  {
    if s.logout {
      r, k := s.(logout := false), KLogout;
    } else if s.playing != [] {
      r, k := s.(playing := s.playing[..|s.playing| - 1]), s.playing[|s.playing| - 1];
    } else if s.enter {
      r, k := s.(enter := false), KEnter;
    } else if s.choosing != [] {
      r, k := s.(choosing := s.choosing[..|s.choosing| - 1]), s.choosing[|s.choosing| - 1];
    } else if s.waiting != [] {
      r, k := s.(waiting := s.waiting[..|s.waiting| - 1]), s.waiting[|s.waiting| - 1];
    } else if s.login {
      r, k := s.(login := false), KLogin;
    } else {
      r, k := s.(idle := s.idle[..|s.idle| - 1]), s.idle[|s.idle| - 1];
    }
  }

  lemma RetractSpelling(s: Script, w: seq<Kind>, last: Kind) returns (r: Script)
    requires s.Valid() && s.Spell() == w + [last]
    ensures r.Valid() && KindAllowed(r.EndPhase(), last) && Extend(r, last) == s && r.Spell() == w
  {
    var k;
    r, k := Retract(s);
    ExtendSpells(r, k);
    SnocIsInjective(r.Spell(), k, w, last);
  }

  lemma SnocIsInjective<T>(a: seq<T>, x: T, b: seq<T>, y: T)
    requires a + [x] == b + [y]
    ensures a == b && x == y
  {
    assert |a| == |b| && (a + [x])[|a|] == x && (b + [y])[|b|] == y;
    assert a == (a + [x])[..|a|] && b == (b + [y])[..|b|];
  }

  /** The code points of Unicode's white space. */
  const WHITE := {
    9, 10, 11, 12, 13, 32, 133, 160, 5760, 8192, 8193, 8194, 8195, 8196, 8197, 8198, 8199, 8200, 8201, 8202,
    8232, 8233, 8239, 8287, 12288}

  predicate HasText(s: string) {
    exists i :: 0 <= i < |s| && s[i] as int !in WHITE
  }

  /** Every login has a user name that is not blank and a password that is not empty; every chat and
      guild chat has text. */
  predicate AllPayloadsOk(cmds: seq<ClientCommand>) {
    forall i :: 0 <= i < |cmds| ==>
      && (cmds[i].Login? ==> HasText(cmds[i].username) && |cmds[i].password| > 0)
      && (cmds[i].Chat? ==> HasText(cmds[i].message))
      && (cmds[i].GuildChat? ==> HasText(cmds[i].guildMessage))
  }

  lemma BlankHasNoText(s: string)
    ensures HasText(s) <==> !IsBlank(s)
  {
    assert forall c: char :: IsWhitespace(c) <==> c as int in WHITE;
  }

  lemma PayloadsOkGrows(front: seq<ClientCommand>, c: ClientCommand)
    ensures AllPayloadsOk(front + [c]) <==> AllPayloadsOk(front) && PayloadOk(c)
  {
    var cmds := front + [c];
    assert forall i :: 0 <= i < |front| ==> cmds[i] == front[i];
    assert cmds[|front|] == c;
    match c
    case Login(username, _, _) => BlankHasNoText(username);
    case Chat(message) => BlankHasNoText(message);
    case GuildChat(message) => BlankHasNoText(message);
    case _ =>
  }

  lemma {:induction false} AcceptedHasScript(cmds: seq<ClientCommand>) returns (s: Script)
    requires Run(PreAuth, cmds).Some?
    ensures s.Valid() && s.Spell() == Kinds(cmds) && s.EndPhase() == Run(PreAuth, cmds).value
    ensures AllPayloadsOk(cmds)
    decreases |cmds|
  {
    if cmds == [] {
      s := Script([], false, [], [], false, [], false);
    } else {
      var front, c := cmds[..|cmds| - 1], cmds[|cmds| - 1];
      assert front + [c] == cmds;
      RunSnoc(PreAuth, front, c);
      var r := AcceptedHasScript(front);
      s := Extend(r, KindOf(c));
      ExtendKeepsValid(r, KindOf(c));
      ExtendSpells(r, KindOf(c));
      ExtendPhase(r, c);
      PayloadsOkGrows(front, c);
      assert Kinds(cmds) == Kinds(front) + [KindOf(c)];
    }
  }

  lemma {:induction false} ScriptIsAccepted(cmds: seq<ClientCommand>, s: Script)
    requires s.Valid() && s.Spell() == Kinds(cmds) && AllPayloadsOk(cmds)
    ensures Run(PreAuth, cmds) == Some(s.EndPhase())
    decreases |cmds|
  {
    if cmds != [] {
      var front, c := cmds[..|cmds| - 1], cmds[|cmds| - 1];
      assert front + [c] == cmds;
      assert Kinds(cmds) == Kinds(front) + [KindOf(c)];
      var r := RetractSpelling(s, Kinds(front), KindOf(c));
      PayloadsOkGrows(front, c);
      ScriptIsAccepted(front, r);
      ExtendPhase(r, c);
      RunSnoc(PreAuth, front, c);
    }
  }

  /** Why a command is turned away: its state does not allow its kind, or else its payload is empty. */
  lemma WhyRejected(phase: Phase, c: ClientCommand)
    ensures !KindAllowed(phase, KindOf(c)) ==> Validate(AsDomainState(phase), c) == Err(InvalidSessionState(AsDomainState(phase), c))
    ensures KindAllowed(phase, KindOf(c)) && !AllPayloadsOk([c]) ==> Validate(AsDomainState(phase), c) == Err(InvalidPayload(c))
    ensures KindAllowed(phase, KindOf(c)) && AllPayloadsOk([c]) ==> Validate(AsDomainState(phase), c) == Ok(())
  {
    PayloadsOkGrows([], c);
    assert [] + [c] == [c];
  }

  /** A connection enqueues every command it is sent exactly when they spell a session's life. */
  lemma EnqueuedInFull(cmds: seq<ClientCommand>)
    ensures Offer(PreAuth, cmds) == cmds <==> AllPayloadsOk(cmds) && InLanguage(Kinds(cmds))
  {
    OfferIsAccepted(PreAuth, cmds);
    if Run(PreAuth, cmds).Some? {
      var s := AcceptedHasScript(cmds);
    }
    if AllPayloadsOk(cmds) && InLanguage(Kinds(cmds)) {
      var s: Script :| s.Valid() && s.Spell() == Kinds(cmds);
      ScriptIsAccepted(cmds, s);
    }
  }

  /** Whatever a client sends, what reaches the queue spells a session's life. */
  lemma EnqueuedIsInLanguage(cmds: seq<ClientCommand>)
    ensures InLanguage(Kinds(Offer(PreAuth, cmds)))
  {
    OfferIsAccepted(PreAuth, cmds);
    var s := AcceptedHasScript(Offer(PreAuth, cmds));
  }

  /** In an accepted sequence Login occurs at most once and nothing follows Logout. */
  lemma {:induction false} OneLoginAndLogoutIsLast(cmds: seq<ClientCommand>)
    requires Run(PreAuth, cmds).Some?
    ensures forall i, j :: 0 <= i < j < |cmds| ==> !(cmds[i].Login? && cmds[j].Login?)
    ensures forall i :: 0 <= i < |cmds| - 1 ==> !cmds[i].Logout?
    ensures Run(PreAuth, cmds).value == PreAuth <==> forall i :: 0 <= i < |cmds| ==> !cmds[i].Login?
    ensures Run(PreAuth, cmds).value == Closed <==> cmds != [] && cmds[|cmds| - 1].Logout?
    decreases |cmds|
  {
    if cmds != [] {
      var front, c := cmds[..|cmds| - 1], cmds[|cmds| - 1];
      assert front + [c] == cmds;
      RunSnoc(PreAuth, front, c);
      OneLoginAndLogoutIsLast(front);
      LoginsAndLogoutsGrow(front, c, Run(PreAuth, front).value);
    }
  }

  /** What the phase remembers of the commands before: a Login, and a Logout at the very end. */
  ghost predicate Remembers(p: Phase, cmds: seq<ClientCommand>) {
    && (forall i, j :: 0 <= i < j < |cmds| ==> !(cmds[i].Login? && cmds[j].Login?))
    && (forall i :: 0 <= i < |cmds| - 1 ==> !cmds[i].Logout?)
    && (p == PreAuth <==> forall i :: 0 <= i < |cmds| ==> !cmds[i].Login?)
    && (p == Closed <==> cmds != [] && cmds[|cmds| - 1].Logout?)
  }

  lemma LoginsAndLogoutsGrow(front: seq<ClientCommand>, c: ClientCommand, p: Phase)
    requires Remembers(p, front) && Accepts(p, c)
    ensures Remembers(NextPhase(p, c), front + [c])
  {
    var cmds := front + [c];
    assert forall i :: 0 <= i < |front| ==> cmds[i] == front[i];
    assert cmds[|front|] == c;
  }
}
