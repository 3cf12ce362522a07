/**
 * The rooms and the command loop (class Room, `setup_game` and `game_loop` of
 * game.py) as values. Rooms live in an arena, a sequence indexed by room id,
 * and exits name room ids. Module Game keeps the same state in objects and
 * proves its loop equal to `Run` below.
 */
module WorldRules {
  import opened Wrappers
  import opened Text
  import opened Entities
  import opened CombatRules

  type RoomId = nat

  /** A room. Its description is only ever printed, so it is not here. */
  datatype Place = Place(name: string, enemy: Option<Foe>, item: Option<string>, found: bool,
                         exits: map<string, RoomId>, needs: Option<string>)

  /** The player, the room the player is in, every room, and the ids of the two rooms
      the loop refers to by their `setup_game` variable names. */
  datatype WorldState = WorldState(hero: Hero, here: RoomId, rooms: seq<Place>,
                                   chamber: RoomId, hall: RoomId)

  /** `Playing` is an iteration of the loop that went on to the next one. */
  datatype Status = Playing | Quit | Won | Died | InputEnded

  datatype Session = Session(world: WorldState, status: Status, rest: seq<Entry>)

  const CaveMouth: string := "Cave Mouth"
  const TreasureChamber: string := "Treasure Chamber"
  const VictoryHall: string := "Victory Hall"
  const RustyKey: string := "rusty key"
  const EnterChamber: string := "enter chamber"

  /** Every room id in the world names a room of the arena. */
  ghost predicate Valid(w: WorldState) {
    && w.here < |w.rooms| && w.chamber < |w.rooms| && w.hall < |w.rooms|
    && forall k, d :: 0 <= k < |w.rooms| && d in w.rooms[k].exits ==> w.rooms[k].exits[d] < |w.rooms|
  }

  /** `room.add_exit(direction, target)`: the lower-cased direction now leads to `target`. */
  function AddExit(p: Place, direction: string, target: RoomId): (q: Place)
    ensures q.exits.Keys == p.exits.Keys + {Lower(direction)}
    ensures q.exits[Lower(direction)] == target
    ensures forall d :: d in p.exits && d != Lower(direction) ==> q.exits[d] == p.exits[d]
    ensures q == p.(exits := q.exits)
  {
    p.(exits := p.exits[Lower(direction) := target])
  }

  /** Whether a room's `requires_item` bars a player holding `inventory` (an empty name,
      like `None`, bars nobody). */
  predicate Bars(need: Option<string>, inventory: seq<string>) {
    need.Some? && need.value != "" && need.value !in inventory
  }

  /** `get <name>` (game.py:285-296). */
  function Get(w: WorldState, name: string): WorldState
    requires Valid(w)
  {
    var room := w.rooms[w.here];
    if room.item == Some(name) && !room.found then
      w.(hero := w.hero.(inventory := w.hero.inventory + [name]),
         rooms := w.rooms[w.here := room.(found := true, item := None)])
    else w
  }

  /** `go <direction> ...` (game.py:300-323): only `tokens[1]` names the exit; the whole
      command is searched for "chamber". */
  function Go(w: WorldState, tokens: seq<string>): (v: WorldState)
    requires Valid(w) && |tokens| > 1
    ensures Valid(v)
  {
    var direction := tokens[1];
    var room := w.rooms[w.here];
    if direction in room.exits then
      var next := room.exits[direction];
      if Bars(w.rooms[next].needs, w.hero.inventory) then w
      else if w.rooms[next].name == TreasureChamber && w.rooms[next].enemy.None? then w.(here := w.hall)
      else w.(here := next)
    else if direction == "enter" && "chamber" in tokens && room.name == CaveMouth then
      if RustyKey in w.hero.inventory && EnterChamber in room.exits then w.(here := room.exits[EnterChamber])
      else w
    else w
  }

  /** A non-empty command other than `quit` (game.py:260-327). `help`, `look`, `stats`,
      `inventory` and unknown verbs only print. */
  function Dispatch(w: WorldState, tokens: seq<string>): (v: WorldState)
    requires Valid(w)
    ensures Valid(v)
  {
    if |tokens| > 1 && tokens[0] == "use" then w.(hero := UseItem(w.hero, Join(tokens[1..])))
    else if |tokens| > 1 && tokens[0] == "get" then Get(w, Join(tokens[1..]))
    else if |tokens| > 1 && tokens[0] == "go" then Go(w, tokens)
    else w
  }

  /** `help`, `look`, `stats`, `inventory`, an unknown verb, and `use`/`get`/`go` without an
      argument change nothing. */
  lemma DispatchOnlyPrints(w: WorldState, tokens: seq<string>)
    requires Valid(w)
    requires |tokens| <= 1 || (tokens[0] != "use" && tokens[0] != "get" && tokens[0] != "go")
    ensures Dispatch(w, tokens) == w
  {
  }

  /** After a won fight (game.py:231-238): the enemy leaves the room. The exit to the
      chamber would be added only if the player both lacked and held the key. */
  function Cleared(w: WorldState): (v: WorldState)
    requires Valid(w)
    ensures Valid(v)
  {
    var room := w.rooms[w.here];
    var inventory := w.hero.inventory;
    var unlocked :=
      if room.name == CaveMouth && RustyKey !in inventory then
        if RustyKey in inventory then AddExit(room, EnterChamber, w.chamber) else room
      else room;
    w.(rooms := w.rooms[w.here := unlocked.(enemy := None)])
  }

  /** The part of an iteration after any fight (game.py:245-327): the win check, then one
      command line, lower-cased and split. */
  function Command(w: WorldState, input: seq<Entry>): (s: Session)
    requires Valid(w)
    ensures Valid(s.world)
    ensures s.status == Playing ==> |s.rest| < |input|
  {
    if w.rooms[w.here].name == VictoryHall then Session(w, Won, input)
    else if input == [] then Session(w, InputEnded, input)
    else
      var tokens := Split(Lower(input[0].line));
      if tokens != [] && tokens[0] == "quit" then Session(w, Quit, input[1..])
      else Session(Dispatch(w, tokens), Playing, input[1..])
  }

  /** One iteration of the `game_loop` body: a live enemy in the room is fought before
      anything else; a fled or won fight goes straight to the next iteration. */
  function Iterate(w: WorldState, input: seq<Entry>): (s: Session)
    requires Valid(w)
    ensures Valid(s.world)
    ensures Alive(w.hero.body) && s.status == Playing ==> |s.rest| < |input|
  {
    var room := w.rooms[w.here];
    if room.enemy.Some? && Alive(room.enemy.value.body) then
      var c := Combat(w.hero, room.enemy.value, input);
      var w1 := w.(hero := c.hero, rooms := w.rooms[w.here := room.(enemy := Some(c.foe))]);
      match c.outcome
      case PlayerDead => Session(w1, Died, c.rest)
      case EnemyDead => Session(Cleared(w1), Playing, c.rest)
      case Fled => Session(w1, Playing, c.rest)
      case OutOfInput => Session(w1, InputEnded, c.rest)
      case Error => Command(w1, c.rest)
    else Command(w, input)
  }

  /** `game_loop`: iterations while the player is alive. */
  function Run(w: WorldState, input: seq<Entry>): (s: Session)
    requires Valid(w)
    ensures Valid(s.world)
    ensures s.status != Playing
    decreases |input|
  {
    if !Alive(w.hero.body) then Session(w, Died, input)
    else
      var s := Iterate(w, input);
      if s.status == Playing then Run(s.world, s.rest) else s
  }

  /** The world `setup_game` builds (game.py:134-162), with the room ids 0 to 5 in the
      order the rooms are created. */
  function Setup(): WorldState {
    var orc := Foe(Fighter(40, 40, 8, 3), 50, []);
    var troll := Foe(Fighter(70, 70, 12, 5), 80, [RustyKey]);
    var dragon := Foe(Fighter(150, 150, 20, 8), 200, []);
    var village := AddExit(Place("Quiet Village", None, None, false, map[], None), "north", 1);
    var forestEntrance := AddExit(AddExit(Place("Forest Entrance", Some(Goblin), None, false, map[], None),
                                          "south", 0), "east", 2);
    var deepForest := AddExit(AddExit(Place("Deep Forest", Some(orc), Some(HealthPotion), false, map[], None),
                                      "west", 1), "north", 3);
    var caveMouth := AddExit(Place(CaveMouth, Some(troll), None, false, map[], None), "south", 2);
    var treasureChamber := Place(TreasureChamber, Some(dragon), None, false, map[], None);
    var victoryHall := Place(VictoryHall, None, None, false, map[], None);
    WorldState(Newcomer, 0, [village, forestEntrance, deepForest, caveMouth, treasureChamber, victoryHall], 4, 5)
  }

  /** `get <name>` succeeds exactly when the room still offers that item: the name is
      appended to the inventory and the room stops offering it. Otherwise nothing changes,
      whether the name never matched or the item was already taken. */
  lemma GetEffect(w: WorldState, name: string)
    requires Valid(w)
    ensures var room := w.rooms[w.here]; var v := Get(w, name);
      && (room.item == Some(name) && !room.found ==>
            && v.hero == w.hero.(inventory := w.hero.inventory + [name])
            && v.here == w.here && |v.rooms| == |w.rooms|
            && v.rooms[w.here] == room.(item := None, found := true)
            && (forall k :: 0 <= k < |w.rooms| && k != w.here ==> v.rooms[k] == w.rooms[k]))
      && (!(room.item == Some(name) && !room.found) ==> v == w)
  {
  }

  /** Taking the same item a second time changes nothing. */
  lemma GetTwice(w: WorldState, name: string)
    requires Valid(w)
    ensures Get(Get(w, name), name) == Get(w, name)
  {
  }

  /** `go <d>` through an existing exit: the requirement of the destination room, not of the
      current one, decides; only the player's room changes; words after `<d>` are ignored. */
  lemma GoThroughExit(w: WorldState, tokens: seq<string>)
    requires Valid(w) && |tokens| > 1 && tokens[1] in w.rooms[w.here].exits
    ensures var next := w.rooms[w.here].exits[tokens[1]];
      var dest := w.rooms[next];
      var v := Go(w, tokens);
      && v == w.(here := v.here)
      && (Bars(dest.needs, w.hero.inventory) ==> v.here == w.here)
      && (!Bars(dest.needs, w.hero.inventory) && !(dest.name == TreasureChamber && dest.enemy.None?) ==>
            v.here == next)
      && (!Bars(dest.needs, w.hero.inventory) && dest.name == TreasureChamber && dest.enemy.None? ==>
            v.here == w.hall)
      && v == Go(w, tokens[..2])
  {
  }

  /** `go <d>` where `<d>` is no exit leaves the player where they are, except for the
      `go enter ... chamber` passage at the Cave Mouth. */
  lemma GoNowhere(w: WorldState, tokens: seq<string>)
    requires Valid(w) && |tokens| > 1 && tokens[1] !in w.rooms[w.here].exits
    requires !(tokens[1] == "enter" && "chamber" in tokens && w.rooms[w.here].name == CaveMouth)
    ensures Go(w, tokens) == w
  {
  }

  /** `go enter chamber` at the Cave Mouth moves only through an exit named "enter chamber"
      and only with the key: without such an exit the player never moves. */
  lemma EnterChamberGate(w: WorldState, tokens: seq<string>)
    requires Valid(w) && |tokens| > 1 && tokens[1] == "enter" && "chamber" in tokens
    requires w.rooms[w.here].name == CaveMouth && "enter" !in w.rooms[w.here].exits
    ensures var room := w.rooms[w.here];
      Go(w, tokens) == if RustyKey in w.hero.inventory && EnterChamber in room.exits
                       then w.(here := room.exits[EnterChamber]) else w
    ensures EnterChamber !in w.rooms[w.here].exits ==> Go(w, tokens) == w
  {
  }

  /** Defeating an enemy removes it from the room and never adds an exit: the unlock of
      game.py:238 needs "rusty key" both absent and present. */
  lemma UnlockNeverFires(w: WorldState)
    requires Valid(w)
    ensures var v := Cleared(w);
      && v.hero == w.hero && v.here == w.here && |v.rooms| == |w.rooms|
      && v.rooms[w.here] == w.rooms[w.here].(enemy := None)
      && (forall k :: 0 <= k < |w.rooms| && k != w.here ==> v.rooms[k] == w.rooms[k])
  {
  }

  /** The parts of the world no iteration changes: room names, exits and entry requirements. */
  ghost predicate SameLayout(a: WorldState, b: WorldState) {
    && |a.rooms| == |b.rooms| && a.chamber == b.chamber && a.hall == b.hall
    && forall k :: 0 <= k < |a.rooms| ==>
         && a.rooms[k].name == b.rooms[k].name
         && a.rooms[k].exits == b.rooms[k].exits
         && a.rooms[k].needs == b.rooms[k].needs
  }

  lemma IterateKeepsLayout(w: WorldState, input: seq<Entry>)
    requires Valid(w)
    ensures SameLayout(w, Iterate(w, input).world)
  {
    var room := w.rooms[w.here];
    if room.enemy.Some? && Alive(room.enemy.value.body) {
      var c := Combat(w.hero, room.enemy.value, input);
      var w1 := w.(hero := c.hero, rooms := w.rooms[w.here := room.(enemy := Some(c.foe))]);
      if c.outcome == EnemyDead {
        UnlockNeverFires(w1);
      }
    }
  }

  /** However the session goes, no exit is ever added or removed, so the chamber passage
      never opens. */
  lemma {:induction false} RunKeepsLayout(w: WorldState, input: seq<Entry>)
    requires Valid(w)
    ensures SameLayout(w, Run(w, input).world)
    decreases |input|
  {
    if Alive(w.hero.body) {
      var s := Iterate(w, input);
      IterateKeepsLayout(w, input);
      if s.status == Playing {
        RunKeepsLayout(s.world, s.rest);
      }
    }
  }

  /** Fleeing keeps the player in the same room with the enemy still alive there, so the
      next iteration starts the same fight again. */
  lemma FledFightsAgain(w: WorldState, input: seq<Entry>)
    requires Valid(w)
    requires var room := w.rooms[w.here]; room.enemy.Some? && Alive(room.enemy.value.body)
    requires Combat(w.hero, w.rooms[w.here].enemy.value, input).outcome == Fled
    ensures var s := Iterate(w, input);
      var c := Combat(w.hero, w.rooms[w.here].enemy.value, input);
      && s.status == Playing && s.world.here == w.here && s.world.hero == c.hero
      && s.world.rooms[w.here].enemy == Some(c.foe)
      && Alive(c.foe.body)
  {
    CombatVerdict(w.hero, w.rooms[w.here].enemy.value, input);
  }

  /** A live enemy in the room is always fought first (game.py:226-243): the fight reads
      the iteration's input, no command line is read, the player stays in the room, and
      each way out of the fight gives the status the loop acts on. */
  lemma IterateForcedFight(w: WorldState, input: seq<Entry>)
    requires Valid(w) && Alive(w.hero.body)
    requires var room := w.rooms[w.here]; room.enemy.Some? && Alive(room.enemy.value.body)
    ensures var s := Iterate(w, input);
      var c := Combat(w.hero, w.rooms[w.here].enemy.value, input);
      && c.outcome != Error
      && s.rest == c.rest && s.world.here == w.here && s.world.hero == c.hero
      && (c.outcome == PlayerDead ==> s.status == Died)
      && (c.outcome == EnemyDead ==> s.status == Playing && s.world.rooms[w.here].enemy == None)
      && (c.outcome == Fled ==> s.status == Playing && s.world.rooms[w.here].enemy == Some(c.foe))
      && (c.outcome == OutOfInput ==> s.status == InputEnded)
  {
  }

  /** A command keeps the player's hp capped and a living player alive: `use` only ever
      heals, and nothing else a command does touches hp. */
  lemma CommandCapped(w: WorldState, input: seq<Entry>)
    requires Valid(w) && Capped(w.hero.body) && Alive(w.hero.body)
    ensures var s := Command(w, input);
      && Capped(s.world.hero.body) && Alive(s.world.hero.body) && s.status != Died
  {
    if w.rooms[w.here].name != VictoryHall && input != [] {
      var tokens := Split(Lower(input[0].line));
      if |tokens| > 1 && tokens[0] == "use" {
        var name := Join(tokens[1..]);
        if name == HealthPotion && HealthPotion in w.hero.inventory {
          UsePotion(w.hero);
        } else {
          UseItemOtherwise(w.hero, name);
        }
      }
    }
  }

  /** One iteration entered alive ends in `Died` exactly when it leaves the player dead. */
  lemma IterateCapped(w: WorldState, input: seq<Entry>)
    requires Valid(w) && Capped(w.hero.body) && Alive(w.hero.body)
    ensures var s := Iterate(w, input);
      && Capped(s.world.hero.body)
      && (s.status == Died <==> !Alive(s.world.hero.body))
  {
    var room := w.rooms[w.here];
    if room.enemy.Some? && Alive(room.enemy.value.body) {
      var c := Combat(w.hero, room.enemy.value, input);
      CombatCapped(w.hero, room.enemy.value, input);
      CombatVerdict(w.hero, room.enemy.value, input);
      var w1 := w.(hero := c.hero, rooms := w.rooms[w.here := room.(enemy := Some(c.foe))]);
      if c.outcome == Error {
        CommandCapped(w1, c.rest);
      }
    } else {
      CommandCapped(w, input);
    }
  }

  /** The loop's closing check (game.py:331-332): a session ends in `Died` exactly when the
      player is down at the end, so "GAME OVER" is printed for every death and only then. */
  lemma {:induction false} RunDiedExactly(w: WorldState, input: seq<Entry>)
    requires Valid(w) && Capped(w.hero.body)
    ensures var s := Run(w, input);
      && Capped(s.world.hero.body)
      && (s.status == Died <==> !Alive(s.world.hero.body))
    decreases |input|
  {
    if Alive(w.hero.body) {
      var s := Iterate(w, input);
      IterateCapped(w, input);
      if s.status == Playing {
        RunDiedExactly(s.world, s.rest);
      }
    }
  }

  /** The session is won only by standing in the Victory Hall at the start of an iteration. */
  lemma {:induction false} WonOnlyInVictoryHall(w: WorldState, input: seq<Entry>)
    requires Valid(w)
    ensures Run(w, input).status == Won ==> Run(w, input).world.rooms[Run(w, input).world.here].name == VictoryHall
    decreases |input|
  {
    if Alive(w.hero.body) {
      var s := Iterate(w, input);
      if s.status == Playing {
        WonOnlyInVictoryHall(s.world, s.rest);
      }
    }
  }

  /** The converse (game.py:246-248): a living player in the Victory Hall with no live
      enemy there wins at once, before any line is read. */
  lemma HallWins(w: WorldState, input: seq<Entry>)
    requires Valid(w) && Alive(w.hero.body)
    requires var room := w.rooms[w.here];
      room.name == VictoryHall && !(room.enemy.Some? && Alive(room.enemy.value.body))
    ensures Run(w, input) == Session(w, Won, input)
  {
  }

  /** The exits `setup_game` wires, with their directions lower-cased. */
  lemma SetupExits()
    ensures var w := Setup();
      && |w.rooms| == 6 && w.here == 0 && w.chamber == 4 && w.hall == 5
      && w.rooms[0].exits == map["north" := 1]
      && w.rooms[1].exits == map["south" := 0, "east" := 2]
      && w.rooms[2].exits == map["west" := 1, "north" := 3]
      && w.rooms[3].exits == map["south" := 2]
      && w.rooms[4].exits == map[] && w.rooms[5].exits == map[]
  {
    LowerFixesLowercase("north");
    LowerFixesLowercase("south");
    LowerFixesLowercase("east");
    LowerFixesLowercase("west");
  }

  /** The six rooms of `Setup()` spelled out, with their exits lower-cased. */
  lemma SetupRooms()
    ensures Setup() == WorldState(Newcomer, 0, SetupPlaces(), 4, 5)
  {
    SetupExits();
  }

  function SetupPlaces(): seq<Place> {
    [ Place("Quiet Village", None, None, false, map["north" := 1], None),
      Place("Forest Entrance", Some(Goblin), None, false, map["south" := 0, "east" := 2], None),
      Place("Deep Forest", Some(Foe(Fighter(40, 40, 8, 3), 50, [])), Some(HealthPotion), false,
            map["west" := 1, "north" := 3], None),
      Place(CaveMouth, Some(Foe(Fighter(70, 70, 12, 5), 80, [RustyKey])), None, false, map["south" := 2], None),
      Place(TreasureChamber, Some(Foe(Fighter(150, 150, 20, 8), 200, [])), None, false, map[], None),
      Place(VictoryHall, None, None, false, map[], None) ]
  }

  lemma SetupValid()
    ensures Valid(Setup())
  {
    SetupExits();
  }

  /** A world reachable from the setup: the setup's layout, the player in one of the four
      rooms before the Treasure Chamber. */
  ghost predicate Confined(w: WorldState) {
    Valid(w) && SameLayout(Setup(), w) && w.here < 4
  }

  /** The four rooms before the Treasure Chamber lead only to one another, and none of them
      is the Treasure Chamber or the Victory Hall. */
  lemma SetupFrontRooms()
    ensures var w := Setup();
      && |w.rooms| == 6
      && (forall k, d :: 0 <= k < 4 && d in w.rooms[k].exits ==> w.rooms[k].exits[d] < 4)
      && (forall k :: 0 <= k < 4 ==> w.rooms[k].name != TreasureChamber && w.rooms[k].name != VictoryHall)
  {
    SetupExits();
  }

  lemma GoConfined(w: WorldState, tokens: seq<string>)
    requires Confined(w) && |tokens| > 1
    ensures Confined(Go(w, tokens))
  {
    SetupFrontRooms();
    var room := w.rooms[w.here];
    assert room.exits == Setup().rooms[w.here].exits;
    assert forall k :: 0 <= k < 4 ==> w.rooms[k].name == Setup().rooms[k].name;
  }

  lemma CommandConfined(w: WorldState, input: seq<Entry>)
    requires Confined(w)
    ensures Confined(Command(w, input).world)
    ensures Command(w, input).status != Won
  {
    SetupFrontRooms();
    assert w.rooms[w.here].name == Setup().rooms[w.here].name;
    if input != [] {
      var tokens := Split(Lower(input[0].line));
      if |tokens| > 1 && tokens[0] == "go" {
        GoConfined(w, tokens);
      }
    }
  }

  /** From a confined world no iteration leads past the Cave Mouth, and the win check fails. */
  lemma IterateConfined(w: WorldState, input: seq<Entry>)
    requires Confined(w)
    ensures Confined(Iterate(w, input).world)
    ensures Iterate(w, input).status != Won
  {
    var room := w.rooms[w.here];
    if room.enemy.Some? && Alive(room.enemy.value.body) {
      var c := Combat(w.hero, room.enemy.value, input);
      var w1 := w.(hero := c.hero, rooms := w.rooms[w.here := room.(enemy := Some(c.foe))]);
      assert Confined(w1);
      if c.outcome == EnemyDead {
        UnlockNeverFires(w1);
      } else if c.outcome == Error {
        CommandConfined(w1, c.rest);
      }
    } else {
      CommandConfined(w, input);
    }
  }

  lemma {:induction false} RunConfined(w: WorldState, input: seq<Entry>)
    requires Confined(w)
    ensures Confined(Run(w, input).world)
    ensures Run(w, input).status != Won
    decreases |input|
  {
    if Alive(w.hero.body) {
      var s := Iterate(w, input);
      IterateConfined(w, input);
      if s.status == Playing {
        RunConfined(s.world, s.rest);
      }
    }
  }

  /** As written, the game cannot be won: whatever the player types and however the coin
      falls, the session never reaches the Victory Hall. */
  lemma SetupNeverWon(input: seq<Entry>)
    ensures Run(Setup(), input).status != Won
    ensures Run(Setup(), input).world.here < 4
  {
    SetupValid();
    RunConfined(Setup(), input);
  }

  /** In any world reachable from the setup, `go enter chamber` at the Cave Mouth leaves
      the player there, key or no key. */
  lemma SetupChamberSealed(w: WorldState, tokens: seq<string>)
    requires Confined(w) && w.here == 3
    requires |tokens| > 1 && tokens[1] == "enter" && "chamber" in tokens
    ensures Go(w, tokens) == w
  {
    SetupExits();
  }
}
