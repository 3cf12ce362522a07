/**
 * game.py's objects and loops: characters, the player, enemies and rooms are
 * objects whose fields the methods update in place, `Combat` and `GameLoop`
 * are the two `while` loops. Every method's contract gives the whole new state of
 * the objects it changes, most of them as the value (modules Entities, CombatRules,
 * WorldRules) of the old state.
 */
module Game {
  import opened Wrappers
  import opened Text
  import opened Entities
  import opened CombatRules
  import opened WorldRules

  /** `Character`: the stats shared by the player and the enemies. */
  class Character {
    const name: string
    var maxHp: int
    var hp: int
    var attackPower: int
    var defense: int

    constructor (name: string, hp: int, attack: int, defense: int)
      ensures this.name == name && Value() == Fighter(hp, hp, attack, defense)
    {
      this.name := name;
      maxHp, this.hp, attackPower, this.defense := hp, hp, attack, defense;
    }

    function Value(): Fighter
      reads this
    {
      Fighter(maxHp, hp, attackPower, defense)
    }

    predicate IsAlive()
      reads this
    {
      Alive(Value())
    }

    /** `attack(target)`: lowers the target's hp by the damage, with no floor, and returns it. */
    method Attack(target: Character) returns (damage: int)
      modifies target
      ensures damage == Damage(old(attackPower), old(target.defense))
      ensures target.Value() == Hit(old(Value()), old(target.Value()))
      ensures target != this ==> Value() == old(Value())
    {
      damage := attackPower - target.defense;
      if damage < 0 {
        damage := 0;
      }
      target.hp := target.hp - damage;
    }
  }

  /** `Player`: a character with an inventory, a room, xp and a level. */
  class Player {
    const body: Character
    var inventory: seq<string>
    var currentRoom: RoomId
    var xp: int
    var level: int

    /** The room starts as id 0; `SetupGame` places the player explicitly. */
    constructor (name: string, hp: int, attack: int, defense: int)
      ensures fresh(body) && body.name == name
      ensures Value() == Hero(Fighter(hp, hp, attack, defense), [], 0, 1) && currentRoom == 0
    {
      body := new Character(name, hp, attack, defense);
      inventory, currentRoom, xp, level := [], 0, 0, 1;
    }

    function Value(): Hero
      reads this, body
    {
      Hero(body.Value(), inventory, xp, level)
    }

    /** `add_item`: the item goes to the end of the inventory. */
    method AddItem(item: string)
      modifies this
      ensures inventory == old(inventory) + [item]
      ensures xp == old(xp) && level == old(level) && currentRoom == old(currentRoom)
    {
      inventory := inventory + [item];
    }

    predicate HasItem(item: string)
      reads this
    {
      item in inventory
    }

    /** `use_item`. */
    method UseItem(item: string)
      modifies this, body
      ensures Value() == Entities.UseItem(old(Value()), item)
      ensures currentRoom == old(currentRoom)
    {
      if item == HealthPotion {
        if HasItem(HealthPotion) {
          body.hp := Min(body.maxHp, body.hp + PotionHeal);
          inventory := RemoveFirst(inventory, HealthPotion);
        }
      }
    }

    /** `gain_xp`: at most one level-up per call. */
    method GainXp(amount: int)
      modifies this, body
      ensures Value() == Entities.GainXp(old(Value()), amount)
      ensures currentRoom == old(currentRoom)
    {
      xp := xp + amount;
      if xp >= XpPerLevel * level {
        LevelUp();
      }
    }

    /** `level_up`. */
    method LevelUp()
      modifies this, body
      ensures Value() == Entities.LevelUp(old(Value()))
      ensures currentRoom == old(currentRoom)
    {
      level := level + 1;
      xp := 0;
      body.maxHp := body.maxHp + 10;
      body.hp := body.maxHp;
      body.attackPower := body.attackPower + 2;
      body.defense := body.defense + 1;
    }
  }

  /** `Enemy`: a character worth some xp that drops some items. */
  class Enemy {
    const body: Character
    const xpReward: int
    const drops: seq<string>

    constructor (name: string, hp: int, attack: int, defense: int, xpReward: int, drops: seq<string>)
      ensures fresh(body) && body.name == name
      ensures Value() == Foe(Fighter(hp, hp, attack, defense), xpReward, drops)
    {
      body := new Character(name, hp, attack, defense);
      this.xpReward, this.drops := xpReward, drops;
    }

    function Value(): Foe
      reads body
    {
      Foe(body.Value(), xpReward, drops)
    }
  }

  /** `Room`: its enemy, findable item and exits change during play. Exits name room ids. */
  class Room {
    const name: string
    const description: string
    var enemy: Enemy?
    var itemToFind: Option<string>
    var itemFound: bool
    var exits: map<string, RoomId>
    const requiresItem: Option<string>

    constructor (name: string, description: string, enemy: Enemy?, itemToFind: Option<string>,
                 requiresItem: Option<string>)
      ensures this.name == name && this.description == description && this.enemy == enemy
      ensures this.itemToFind == itemToFind && !itemFound && exits == map[]
      ensures this.requiresItem == requiresItem
    {
      this.name, this.description, this.enemy, this.itemToFind := name, description, enemy, itemToFind;
      itemFound, exits, this.requiresItem := false, map[], requiresItem;
    }

    function Value(): Place
      reads this, if enemy == null then {} else {enemy.body}
    {
      Place(name, if enemy == null then None else Some(enemy.Value()), itemToFind, itemFound, exits, requiresItem)
    }

    /** `add_exit`: the lower-cased direction now leads to `target`, replacing any earlier exit. */
    method AddExit(direction: string, target: RoomId)
      modifies this
      ensures exits == old(exits)[Lower(direction) := target]
      ensures enemy == old(enemy) && itemToFind == old(itemToFind) && itemFound == old(itemFound)
    {
      exits := exits[Lower(direction) := target];
    }
  }

  /** The player and the arena of rooms; `chamber` and `hall` are the rooms the loop refers
      to by the names of `setup_game`'s local variables. */
  class World {
    const player: Player
    const rooms: seq<Room>
    const chamber: RoomId
    const hall: RoomId

    constructor (player: Player, rooms: seq<Room>, chamber: RoomId, hall: RoomId)
      ensures this.player == player && this.rooms == rooms && this.chamber == chamber && this.hall == hall
    {
      this.player, this.rooms, this.chamber, this.hall := player, rooms, chamber, hall;
    }

    /** The bodies of the enemies still in a room. */
    ghost function Bodies(): set<Character>
      reads rooms
    {
      set k | 0 <= k < |rooms| && rooms[k].enemy != null :: rooms[k].enemy.body
    }

    /** Room ids are in range, rooms are distinct objects, and no two fighters share a body. */
    ghost predicate Valid()
      reads player, rooms
    {
      && player.currentRoom < |rooms| && chamber < |rooms| && hall < |rooms|
      && (forall i, j :: 0 <= i < |rooms| && 0 <= j < |rooms| && i != j ==> rooms[i] != rooms[j])
      && (forall k, d :: 0 <= k < |rooms| && d in rooms[k].exits ==> rooms[k].exits[d] < |rooms|)
      && (forall k :: 0 <= k < |rooms| && rooms[k].enemy != null ==> rooms[k].enemy.body != player.body)
      && (forall i, j ::
            0 <= i < |rooms| && 0 <= j < |rooms| && i != j && rooms[i].enemy != null && rooms[j].enemy != null
            ==> rooms[i].enemy.body != rooms[j].enemy.body)
    }

    /** The objects hold the world value `w`. */
    ghost predicate Models(w: WorldState)
      reads player, player.body, rooms, Bodies()
    {
      && w.hero == player.Value() && w.here == player.currentRoom
      && w.chamber == chamber && w.hall == hall
      && |w.rooms| == |rooms|
      && forall k :: 0 <= k < |rooms| ==> w.rooms[k] == rooms[k].Value()
    }

    /** Six rooms that hold the six places of `w`, spelled out index by index. */
    lemma SixRooms(w: WorldState)
      requires w.hero == player.Value() && w.here == player.currentRoom && w.chamber == chamber && w.hall == hall
      requires WorldRules.Valid(w) && |rooms| == 6 && |w.rooms| == 6
      requires rooms[0].Value() == w.rooms[0] && rooms[1].Value() == w.rooms[1] && rooms[2].Value() == w.rooms[2]
      requires rooms[3].Value() == w.rooms[3] && rooms[4].Value() == w.rooms[4] && rooms[5].Value() == w.rooms[5]
      requires forall i, j :: 0 <= i < j < 6 ==> rooms[i] != rooms[j]
      requires forall k :: 0 <= k < 6 && rooms[k].enemy != null ==> rooms[k].enemy.body != player.body
      requires forall i, j :: 0 <= i < j < 6 && rooms[i].enemy != null && rooms[j].enemy != null
                 ==> rooms[i].enemy.body != rooms[j].enemy.body
      ensures Valid() && Models(w)
    {
      forall k | 0 <= k < 6
        ensures rooms[k].Value() == w.rooms[k]
      {
        assert k == 0 || k == 1 || k == 2 || k == 3 || k == 4 || k == 5;
      }
      forall i, j | 0 <= i < 6 && 0 <= j < 6 && i != j
        ensures rooms[i] != rooms[j]
        ensures rooms[i].enemy != null && rooms[j].enemy != null ==> rooms[i].enemy.body != rooms[j].enemy.body
      {
        if j < i {
          assert rooms[j] != rooms[i];
        }
      }
    }

    /** The objects `setup_game` builds hold the value `Setup()`. */
    lemma SetupModel(goblin: Enemy, orc: Enemy, trollGuard: Enemy, dragonBoss: Enemy)
      requires player.Value() == Newcomer && player.currentRoom == 0 && chamber == 4 && hall == 5
      requires goblin.Value() == Goblin && orc.Value() == Foe(Fighter(40, 40, 8, 3), 50, [])
      requires trollGuard.Value() == Foe(Fighter(70, 70, 12, 5), 80, [RustyKey])
      requires dragonBoss.Value() == Foe(Fighter(150, 150, 20, 8), 200, [])
      requires player.body != goblin.body && player.body != orc.body
      requires player.body != trollGuard.body && player.body != dragonBoss.body
      requires goblin.body != orc.body && goblin.body != trollGuard.body && goblin.body != dragonBoss.body
      requires orc.body != trollGuard.body && orc.body != dragonBoss.body && trollGuard.body != dragonBoss.body
      requires |rooms| == 6
      requires forall i, j :: 0 <= i < j < 6 ==> rooms[i] != rooms[j]
      requires rooms[0].name == "Quiet Village" && rooms[0].enemy == null && rooms[0].itemToFind == None
      requires rooms[0].exits == map["north" := 1]
      requires rooms[1].name == "Forest Entrance" && rooms[1].enemy == goblin && rooms[1].itemToFind == None
      requires rooms[1].exits == map["south" := 0, "east" := 2]
      requires rooms[2].name == "Deep Forest" && rooms[2].enemy == orc && rooms[2].itemToFind == Some(HealthPotion)
      requires rooms[2].exits == map["west" := 1, "north" := 3]
      requires rooms[3].name == CaveMouth && rooms[3].enemy == trollGuard && rooms[3].itemToFind == None
      requires rooms[3].exits == map["south" := 2]
      requires rooms[4].name == TreasureChamber && rooms[4].enemy == dragonBoss && rooms[4].itemToFind == None
      requires rooms[4].exits == map[]
      requires rooms[5].name == VictoryHall && rooms[5].enemy == null && rooms[5].itemToFind == None
      requires rooms[5].exits == map[]
      requires forall k :: 0 <= k < 6 ==> !rooms[k].itemFound && rooms[k].requiresItem == None
      ensures Valid() && Models(Setup())
    {
      WorldRules.SetupRooms();
      WorldRules.SetupValid();
      var places := SetupPlaces();
      assert rooms[0].Value() == places[0];
      assert rooms[1].Value() == places[1];
      assert rooms[2].Value() == places[2];
      assert rooms[3].Value() == places[3];
      assert rooms[4].Value() == places[4];
      assert rooms[5].Value() == places[5];
      forall i, j | 0 <= i < j < 6 && rooms[i].enemy != null && rooms[j].enemy != null
        ensures rooms[i].enemy.body != player.body && rooms[i].enemy.body != rooms[j].enemy.body
      {
        assert i == 1 || i == 2 || i == 3;
        assert j == 2 || j == 3 || j == 4;
      }
      SixRooms(Setup());
    }

    /** `get <name>` (game.py:285-296). */
    method Get(name: string, ghost w: WorldState)
      requires Valid() && Models(w) && WorldRules.Valid(w)
      modifies player, rooms[player.currentRoom]
      ensures Valid() && Models(WorldRules.Get(w, name))
      ensures forall k :: 0 <= k < |rooms| ==> rooms[k].enemy == old(rooms[k].enemy)
    {
      var room := rooms[player.currentRoom];
      if room.itemToFind == Some(name) && !room.itemFound {
        player.AddItem(name);
        room.itemFound := true;
        room.itemToFind := None;
      }
    }

    /** `go <direction>` (game.py:300-323). */
    method Go(command: seq<string>, ghost w: WorldState)
      requires Valid() && Models(w) && WorldRules.Valid(w) && |command| > 1
      modifies player
      ensures Valid() && Models(WorldRules.Go(w, command))
    {
      var direction := command[1];
      var room := rooms[player.currentRoom];
      if direction in room.exits {
        var next := room.exits[direction];
        var nextRoom := rooms[next];
        if nextRoom.requiresItem.Some? && nextRoom.requiresItem.value != ""
          && !player.HasItem(nextRoom.requiresItem.value) {
          // the destination's requirement bars the move
        } else {
          player.currentRoom := next;
          if nextRoom.name == TreasureChamber && nextRoom.enemy == null {
            player.currentRoom := hall;
          }
        }
      } else if direction == "enter" && "chamber" in command && room.name == CaveMouth {
        if player.HasItem(RustyKey) {
          if EnterChamber in room.exits {
            player.currentRoom := room.exits[EnterChamber];
          }
        }
      }
    }

    /** A non-empty command other than `quit` (game.py:260-327). */
    method Dispatch(command: seq<string>, ghost w: WorldState)
      requires Valid() && Models(w) && WorldRules.Valid(w) && command != []
      modifies player, player.body, rooms[player.currentRoom]
      ensures Valid() && Models(WorldRules.Dispatch(w, command))
      ensures forall k :: 0 <= k < |rooms| ==> rooms[k].enemy == old(rooms[k].enemy)
    {
      var action := command[0];
      if action == "use" {
        if |command| > 1 {
          player.UseItem(Join(command[1..]));
        }
      } else if action == "get" {
        if |command| > 1 {
          Get(Join(command[1..]), w);
        }
      } else if action == "go" {
        if |command| > 1 {
          Go(command, w);
        }
      }
    }

    /** After a won fight (game.py:231-238): the enemy leaves the room. */
    method ClearRoom(ghost w: WorldState)
      requires Valid() && Models(w) && WorldRules.Valid(w)
      modifies rooms[player.currentRoom]
      ensures Valid() && Models(Cleared(w))
    {
      var room := rooms[player.currentRoom];
      room.enemy := null;
      if room.name == CaveMouth && !player.HasItem(RustyKey) {
        if player.HasItem(RustyKey) {
          // game.py:237-238 would add the "enter chamber" exit here; the guards exclude each other.
          assert false;
        }
      }
    }

    /** The rest of an iteration (game.py:245-327): the win check, then one command line. */
    method Command(input: seq<Entry>, ghost w: WorldState) returns (status: Status, rest: seq<Entry>)
      requires Valid() && Models(w) && WorldRules.Valid(w)
      modifies player, player.body, rooms[player.currentRoom]
      ensures Valid()
      ensures var s := WorldRules.Command(w, input); Models(s.world) && status == s.status && rest == s.rest
      ensures Bodies() == old(Bodies())
    {
      var room := rooms[player.currentRoom];
      if room.name == VictoryHall {
        return Won, input;
      }
      if input == [] {
        return InputEnded, input;
      }
      var command := Split(Lower(input[0].line));
      rest := input[1..];
      if command == [] {
        return Playing, rest;
      }
      if command[0] == "quit" {
        return Quit, rest;
      }
      Dispatch(command, w);
      status := Playing;
    }

    /** One pass of the `game_loop` body (game.py:222-329). */
    method Iterate(input: seq<Entry>, ghost w: WorldState) returns (status: Status, rest: seq<Entry>)
      requires Valid() && Models(w) && WorldRules.Valid(w)
      modifies player, player.body, rooms[player.currentRoom], Bodies()
      ensures Valid()
      ensures var s := WorldRules.Iterate(w, input); Models(s.world) && status == s.status && rest == s.rest
      ensures Bodies() <= old(Bodies())
    {
      var room := rooms[player.currentRoom];
      if room.enemy != null && room.enemy.body.IsAlive() {
        var outcome;
        outcome, rest := Confront(this, input, w);
        ghost var c := CombatRules.Combat(w.hero, w.rooms[w.here].enemy.value, input);
        ghost var w1 := w.(hero := c.hero, rooms := w.rooms[w.here := w.rooms[w.here].(enemy := Some(c.foe))]);
        if outcome == PlayerDead {
          return Died, rest;
        } else if outcome == EnemyDead {
          ClearRoom(w1);
          return Playing, rest;
        } else if outcome == Fled {
          return Playing, rest;
        } else if outcome == OutOfInput {
          return InputEnded, rest;
        }
        status, rest := Command(rest, w1);
      } else {
        status, rest := Command(input, w);
      }
    }
  }

  /** The end of a won fight (game.py:209-213): the enemy's xp, then each drop in turn. */
  method Collect(player: Player, enemy: Enemy)
    requires player.body != enemy.body
    modifies player, player.body
    ensures player.Value() == Reward(old(player.Value()), enemy.Value())
    ensures player.currentRoom == old(player.currentRoom)
  {
    player.GainXp(enemy.xpReward);
    ghost var gained := player.Value();
    for i := 0 to |enemy.drops|
      invariant player.Value() == gained.(inventory := gained.inventory + enemy.drops[..i])
      invariant player.currentRoom == old(player.currentRoom)
    {
      player.AddItem(enemy.drops[i]);
      assert enemy.drops[..i + 1] == enemy.drops[..i] + [enemy.drops[i]];
    }
    assert enemy.drops[..|enemy.drops|] == enemy.drops;
  }

  /** `combat(player, enemy)`: rounds while both are alive, reading lines from `input`;
      returns how the fight ended and the input it left. */
  method Combat(player: Player, enemy: Enemy, input: seq<Entry>) returns (outcome: Outcome, rest: seq<Entry>)
    requires player.body != enemy.body
    modifies player, player.body, enemy.body
    ensures Fight(player.Value(), enemy.Value(), outcome, rest)
         == CombatRules.Combat(old(player.Value()), old(enemy.Value()), input)
    ensures player.currentRoom == old(player.currentRoom)
  {
    rest := input;
    while player.body.IsAlive() && enemy.body.IsAlive()
      invariant CombatRules.Combat(player.Value(), enemy.Value(), rest)
             == CombatRules.Combat(old(player.Value()), old(enemy.Value()), input)
      invariant player.currentRoom == old(player.currentRoom)
      decreases |rest|
    {
      ghost var h, f, before := player.Value(), enemy.Value(), rest;
      if rest == [] {
        return OutOfInput, rest;
      }
      var entry := rest[0];
      var action := Lower(entry.line);
      rest := rest[1..];
      var damage: int;
      if action == "a" {
        damage := player.body.Attack(enemy.body);
        if enemy.body.IsAlive() {
          damage := enemy.body.Attack(player.body);
        }
      } else if action == "u" {
        if player.inventory != [] {
          if rest == [] {
            return OutOfInput, rest;
          }
          var choice := Lower(rest[0].line);
          rest := rest[1..];
          if choice != Cancel {
            player.UseItem(choice);
            if enemy.body.IsAlive() {
              damage := enemy.body.Attack(player.body);
            }
          }
        } else {
          if enemy.body.IsAlive() {
            damage := enemy.body.Attack(player.body);
          }
        }
      } else if action == "r" {
        if entry.escapes {
          return Fled, rest;
        }
        damage := enemy.body.Attack(player.body);
      } else {
        if enemy.body.IsAlive() {
          damage := enemy.body.Attack(player.body);
        }
      }
      assert Exchange(h, f, before) == Fight(player.Value(), enemy.Value(), Ongoing, rest);
      if !player.body.IsAlive() {
        return PlayerDead, rest;
      }
      if !enemy.body.IsAlive() {
        Collect(player, enemy);
        return EnemyDead, rest;
      }
    }
    return Error, rest;
  }

  /** The fight that a live enemy in the player's room forces (game.py:226-227). */
  method Confront(world: World, input: seq<Entry>, ghost w: WorldState) returns (outcome: Outcome, rest: seq<Entry>)
    requires world.Valid() && world.Models(w) && WorldRules.Valid(w)
    requires world.rooms[world.player.currentRoom].enemy != null
    modifies world.player, world.player.body, world.rooms[world.player.currentRoom].enemy.body
    ensures world.Valid()
    ensures var c := CombatRules.Combat(w.hero, w.rooms[w.here].enemy.value, input);
      && outcome == c.outcome && rest == c.rest
      && world.Models(w.(hero := c.hero, rooms := w.rooms[w.here := w.rooms[w.here].(enemy := Some(c.foe))]))
    ensures world.Bodies() == old(world.Bodies())
  {
    var room := world.rooms[world.player.currentRoom];
    outcome, rest := Combat(world.player, room.enemy, input);
  }

  /** `game_loop(player)`: iterations while the player is alive, each reading the lines it
      needs from `input`. Returns how the session ended and the input it left. */
  method GameLoop(world: World, input: seq<Entry>, ghost w0: WorldState) returns (status: Status, rest: seq<Entry>)
    requires world.Valid() && world.Models(w0) && WorldRules.Valid(w0)
    modifies world.player, world.player.body, world.rooms, world.Bodies()
    ensures world.Valid()
    ensures world.Models(Run(w0, input).world)
    ensures status == Run(w0, input).status && rest == Run(w0, input).rest
  {
    ghost var w := w0;
    rest := input;
    while world.player.body.IsAlive()
      invariant world.Valid() && world.Models(w) && WorldRules.Valid(w)
      invariant Run(w, rest) == Run(w0, input)
      invariant world.Bodies() <= old(world.Bodies())
      decreases |rest|
    {
      ghost var before := rest;
      status, rest := world.Iterate(rest, w);
      w := WorldRules.Iterate(w, before).world;
      if status != Playing {
        return;
      }
    }
    status := Died;
  }

  /** `setup_game()`: the hero named `name` (read by `input` in the source) in the Quiet
      Village, the four enemies and the six rooms, linked as the value `Setup()` records. */
  method SetupGame(name: string) returns (world: World)
    ensures fresh(world) && world.player.body.name == name
    ensures world.Valid() && world.Models(Setup())
  {
    var player := new Player(name, 50, 10, 2);
    var goblin := new Enemy("Goblin", 20, 5, 1, 20, [HealthPotion]);
    var orc := new Enemy("Orc Grunt", 40, 8, 3, 50, []);
    var trollGuard := new Enemy("Troll Guard", 70, 12, 5, 80, [RustyKey]);
    var dragonBoss := new Enemy("Red Dragon", 150, 20, 8, 200, []);
    var rooms := SetupRooms(goblin, orc, trollGuard, dragonBoss);
    player.currentRoom := 0;
    world := new World(player, rooms, 4, 5);
    world.SetupModel(goblin, orc, trollGuard, dragonBoss);
  }

  /** The rooms of `setup_game`, holding the given enemies, and their exits. */
  method SetupRooms(goblin: Enemy, orc: Enemy, trollGuard: Enemy, dragonBoss: Enemy) returns (rooms: seq<Room>)
    ensures |rooms| == 6
    ensures forall k :: 0 <= k < 6 ==> fresh(rooms[k])
    ensures forall i, j :: 0 <= i < j < 6 ==> rooms[i] != rooms[j]
    ensures rooms[0].name == "Quiet Village" && rooms[0].enemy == null && rooms[0].itemToFind == None
    ensures rooms[0].exits == map["north" := 1]
    ensures rooms[1].name == "Forest Entrance" && rooms[1].enemy == goblin && rooms[1].itemToFind == None
    ensures rooms[1].exits == map["south" := 0, "east" := 2]
    ensures rooms[2].name == "Deep Forest" && rooms[2].enemy == orc && rooms[2].itemToFind == Some(HealthPotion)
    ensures rooms[2].exits == map["west" := 1, "north" := 3]
    ensures rooms[3].name == CaveMouth && rooms[3].enemy == trollGuard && rooms[3].itemToFind == None
    ensures rooms[3].exits == map["south" := 2]
    ensures rooms[4].name == TreasureChamber && rooms[4].enemy == dragonBoss && rooms[4].itemToFind == None
    ensures rooms[4].exits == map[]
    ensures rooms[5].name == VictoryHall && rooms[5].enemy == null && rooms[5].itemToFind == None
    ensures rooms[5].exits == map[]
    ensures forall k :: 0 <= k < 6 ==> !rooms[k].itemFound && rooms[k].requiresItem == None
  {
    var village := new Room("Quiet Village",
      "A peaceful village, though strangely quiet. The path north leads to the forest.", null, None, None);
    var forestEntrance := new Room("Forest Entrance",
      "The trees loom ominously. You hear rustling deeper in.", goblin, None, None);
    var deepForest := new Room("Deep Forest",
      "It's dark and damp. An orc is patrolling here.", orc, Some(HealthPotion), None);
    var caveMouth := new Room(CaveMouth,
      "A dark cave entrance. A sturdy-looking Troll guards it.", trollGuard, None, None);
    var treasureChamber := new Room(TreasureChamber,
      "A hoard of glittering gold... and a massive Red Dragon!", dragonBoss, None, None);
    var victoryHall := new Room(VictoryHall, "The dragon is slain! You are a true hero!", null, None, None);
    LinkRooms(village, forestEntrance, deepForest, caveMouth);
    rooms := [village, forestEntrance, deepForest, caveMouth, treasureChamber, victoryHall];
  }

  /** The `add_exit` calls of `setup_game`; the Cave Mouth gets no exit to the chamber. */
  method LinkRooms(village: Room, forestEntrance: Room, deepForest: Room, caveMouth: Room)
    requires village.exits == forestEntrance.exits == deepForest.exits == caveMouth.exits == map[]
    requires village != forestEntrance && village != deepForest && village != caveMouth
    requires forestEntrance != deepForest && forestEntrance != caveMouth && deepForest != caveMouth
    modifies village, forestEntrance, deepForest, caveMouth
    ensures village.exits == map["north" := 1]
    ensures forestEntrance.exits == map["south" := 0, "east" := 2]
    ensures deepForest.exits == map["west" := 1, "north" := 3]
    ensures caveMouth.exits == map["south" := 2]
    ensures village.enemy == old(village.enemy) && village.itemToFind == old(village.itemToFind)
    ensures village.itemFound == old(village.itemFound)
    ensures forestEntrance.enemy == old(forestEntrance.enemy) && forestEntrance.itemToFind == old(forestEntrance.itemToFind)
    ensures forestEntrance.itemFound == old(forestEntrance.itemFound)
    ensures deepForest.enemy == old(deepForest.enemy) && deepForest.itemToFind == old(deepForest.itemToFind)
    ensures deepForest.itemFound == old(deepForest.itemFound)
    ensures caveMouth.enemy == old(caveMouth.enemy) && caveMouth.itemToFind == old(caveMouth.itemToFind)
    ensures caveMouth.itemFound == old(caveMouth.itemFound)
  {
    LowerFixesLowercase("north");
    LowerFixesLowercase("south");
    LowerFixesLowercase("east");
    LowerFixesLowercase("west");
    village.AddExit("north", 1);
    forestEntrance.AddExit("south", 0);
    forestEntrance.AddExit("east", 2);
    deepForest.AddExit("west", 1);
    deepForest.AddExit("north", 3);
    caveMouth.AddExit("south", 2);
  }
}
