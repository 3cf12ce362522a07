# text-game in Dafny

A model of `game.py`, a single-player text adventure. The world has six rooms and four enemies;
the player fights turn-based battles, picks up and drinks health potions, and gains
experience and levels. As written, only the first four rooms and three of the enemies
(the Goblin, the Orc Grunt and the Troll Guard) can be reached (`SetupNeverWon`).
The model covers the character stat operations (`attack`,
`use_item`, `gain_xp`, `level_up`), the rooms and their exits (`add_exit`, the world
`setup_game` builds), the combat loop (`combat`) and the command loop (`game_loop`), in two
layers:

- **Values** (`text.dfy`, `entities.dfy`, `combat.dfy`, `world.dfy`). Characters, rooms and
  the whole world are datatypes. A fight and a session are functions of the lines the
  player types (`Combat`, `Run`). The lemmas about them state what the game does: damage and
  its missing floor, potion use, the single level-up check, each combat action and its
  counter-attack, victory rewards, `get`/`go`, and an hp cap kept by every operation. They
  also show that the troll-key unlock never fires, so the setup world can never be won.
- **Objects** (`game.dfy`). `Character`, `Player`, `Enemy`, `Room` and `World` are classes
  whose methods update their fields in place, as the Python classes do. `Combat` and
  `GameLoop` are the source's two `while` loops. Every method's contract gives the whole
  new state of the objects it changes, most of them as the first layer's value of the old
  state.
  The loop invariants are what tie each `while` loop to its function.

Terminal input is a parameter: a sequence of `Entry(line, escapes)`. `line` is what one
`input()` call would return. `escapes` is the outcome of `random.random() < 0.5`, and is
used only if that line is an `r` combat action. When the lines run out at a prompt (Python
would raise `EOFError`), a fight ends `OutOfInput` and a session ends `InputEnded`. Rooms
live in an arena, a sequence indexed by room id (0 Quiet Village, 1 Forest Entrance,
2 Deep Forest, 3 Cave Mouth, 4 Treasure Chamber, 5 Victory Hall), and exits map
lower-cased directions to room ids. `Player` and `Enemy` hold a `Character` as `body`,
rather than inheriting from it.

In three places the code departs from its own comments or its apparent design. The
model follows the code:

- `attack` subtracts the damage with no floor (game.py:40), so a defeated character's hp
  can be negative (`HitNotFloored`, `GoblinFight`).
- `u` then `cancel` (game.py:182) costs nothing: nobody attacks (`UseExchange`). Yet `u`
  with an empty inventory (game.py:187-191) and a line that is no action (game.py:199-203)
  both give the enemy a turn (`FumbleExchange`), so opening the item prompt and backing
  out is the one free move.
- The comments at game.py:160 and 234-235 promise an exit to the Treasure Chamber once the
  Troll Guard's key is picked up. The guards at game.py:233 and 236 need "rusty key" to be
  both missing and held, so the exit is never added (`UnlockNeverFires`). `go enter
  chamber` never moves the player (`SetupChamberSealed`), and no session from the setup
  world reaches the Treasure Chamber or wins (`SetupNeverWon`).

## Model

| member | source | states |
|---|---|---|
| Text.Lower | game.py:172 | `str.lower()`: each ASCII capital replaced by its small letter; `LowerShape` states its effect |
| Text.LowerShape | game.py:172 | `lower()` keeps the length, leaves no capital and keeps every other character |
| Text.LowerFixesLowercase | game.py:117-118 | a string without capitals is its own lower case, so the setup's directions are stored as written |
| Text.WordLength | game.py:250 | the first word of a line is non-empty, has no separator, and ends at a separator or the end of the line |
| Text.Split | game.py:250 | `split()` yields only non-empty words without separators |
| Text.Join | game.py:288 | `" ".join(words)`: the words with one space between each two; `SplitJoin` states that `Split` undoes it |
| Text.SplitJoin | game.py:286-288 | splitting `" ".join(words)` gives the words back, so `get`/`use` rebuild the typed name |
| Entities.Alive | game.py:33-34 | `is_alive`: hp above 0 |
| Entities.Capped | game.py:72 | hp at most max hp; `RoundCapped`, `CombatCapped`, `CommandCapped` and `RunDiedExactly` show every operation keeps it |
| Entities.Damage | game.py:37-39 | damage is never negative, at least attack minus defense, and either 0 or exactly attack minus defense |
| Entities.Hit | game.py:36-40 | the target after an attack; `HitEffect` states its effect |
| Entities.HitEffect | game.py:36-44 | an attack lowers the target's hp by exactly the damage, changes no other stat, and defeats it exactly when its hp did not exceed the damage |
| Entities.HitNotFloored | game.py:40 | an attack stronger than the remaining hp leaves it negative |
| Entities.FirstIndex | game.py:73 | the index found holds the item and no earlier index does |
| Entities.RemoveFirst | game.py:73 | `list.remove`: the list before and after the first copy of the item; `RemoveFirstCount` states its effect |
| Entities.RemoveFirstCount | game.py:73 | `remove` takes out exactly one copy of the item and nothing else |
| Entities.UseItem | game.py:68-79 | `use_item`: only a held health potion does anything; `UsePotion` and `UseItemOtherwise` state both cases |
| Entities.UsePotion | game.py:68-75 | a held potion heals 20 hp capped at max hp, uses up exactly one potion, and changes no other stat |
| Entities.UseItemOtherwise | game.py:76-79 | any other name, or no potion held, changes nothing |
| Entities.LevelUp | game.py:88-94 | `level_up`: level +1, xp 0, max hp +10, full heal, attack +2, defense +1 |
| Entities.GainXp | game.py:81-86 | `gain_xp`: the xp added, then at most one `level_up`; `GainXpOnce` and `GainXpAtMostOneLevel` state its effect |
| Entities.GainXpOnce | game.py:81-94 | below 100 times the level only xp grows; at or above it exactly one level-up: level +1, xp 0, max hp +10, full heal, attack +2, defense +1 |
| Entities.GainXpAtMostOneLevel | game.py:84-86 | one gain raises the level by at most one, and after a level-up xp is below the new threshold |
| Entities.Reward | game.py:210-212 | what a victory gives: `gain_xp` of the enemy's reward, then its drops appended in order; `RewardEffect` states its effect |
| Entities.RewardEffect | game.py:208-213 | a victory appends the enemy's drops after the xp gain and keeps the xp gain's xp, level and stats |
| CombatRules.Counter | game.py:198 | the enemy's attack on the player |
| CombatRules.CounterIfAlive | game.py:176-177 | the enemy's attack if the enemy is alive, else nothing (also game.py:185-186, 190-191, 202-203) |
| CombatRules.Exchange | game.py:172-203 | one action reads one line, or two for the item prompt; it never ends the fight by a death, only by a successful escape or the end of the input; the enemy's reward and drops stay as they were |
| CombatRules.Settle | game.py:205-213 | the end-of-round checks: the player's death first, then the enemy's with its reward; `RoundVerdict` states their meaning |
| CombatRules.Round | game.py:170-213 | one pass of the combat loop consumes input from the front, leaving a suffix of it, and keeps the enemy's reward and drops |
| CombatRules.Combat | game.py:166-214 | a fight always ends with a verdict, consumes no extra input, and ends in `Error` only when entered with someone already down; `CombatSuffix` states that it leaves a suffix of the input |
| CombatRules.CombatSuffix | game.py:166-214 | what a fight leaves of the input is a suffix of it: its lines are read from the front |
| CombatRules.ItemPromptAtEnd | game.py:178-181 | an action meets the end of the input exactly when `u` with items held is the last line, so the item prompt has nothing to read |
| CombatRules.AttackExchange | game.py:174-177 | `a`: the player hits first; the enemy strikes back only if it survived |
| CombatRules.RunExchange | game.py:192-198 | `r`: an escape ends the fight with nobody hit; a failed one costs an enemy attack, alive check or not |
| CombatRules.UseExchange | game.py:178-186 | `u` with items: the second line names the item; `cancel` means nobody attacks; any other name is tried, then the enemy attacks if alive |
| CombatRules.FumbleExchange | game.py:187-203 | `u` with an empty inventory, and any unknown action, read one line and only let the enemy attack if alive |
| CombatRules.RoundVerdict | game.py:205-213 | from a round both enter alive at most one falls; a dead player is reported before a dead enemy; a dead enemy pays out the reward |
| CombatRules.CombatVerdict | game.py:166-214 | what each way out of a fight means: `Error` exactly when someone enters down, `PlayerDead` with the enemy alive, `EnemyDead` with the drops at the end of the inventory in order, `Fled` and `OutOfInput` with both alive |
| CombatRules.RoundCapped | game.py:205-213 | a round both enter alive keeps hp at most max hp and leaves the player alive exactly when it does not end in `PlayerDead` |
| CombatRules.CombatCapped | game.py:166-214 | over a whole fight hp stays at most max hp, and a player who enters alive is dead at the end exactly on `PlayerDead` |
| CombatRules.GoblinFight | game.py:134-137 | three `a` rounds against the goblin: goblin at -7 hp, player at 44 hp with 20 xp and a health potion |
| WorldRules.AddExit | game.py:117-118 | the lower-cased direction now leads to the target; every other exit and field is kept |
| WorldRules.Bars | game.py:306 | a destination's `requires_item` bars the move exactly when it names a non-empty item the player does not hold |
| WorldRules.Get | game.py:285-296 | `get <name>`; `GetEffect` and `GetTwice` state its effect |
| WorldRules.Go | game.py:300-323 | moving keeps every room id in range |
| WorldRules.Dispatch | game.py:255-327 | a command keeps every room id in range |
| WorldRules.DispatchOnlyPrints | game.py:260-277 | `help`, `look`, `stats`, `inventory`, unknown verbs and `use`/`get`/`go` with no argument leave the world unchanged |
| WorldRules.Cleared | game.py:231-238 | clearing a room keeps every room id in range |
| WorldRules.Command | game.py:245-327 | after any fight: the ids stay in range, and an iteration that goes on consumes a line |
| WorldRules.Iterate | game.py:221-243 | one iteration keeps the ids in range and, with the player alive, consumes input whenever it goes on; `IterateForcedFight` states the forced fight |
| WorldRules.IterateForcedFight | game.py:226-243 | a live enemy in the room is fought before any command is read; the player stays in the room; a death ends the session in `Died`, a victory clears the room and goes on, an escape goes on with the enemy still there, and the end of input ends the session |
| WorldRules.Run | game.py:217-332 | the loop always ends with a final status and keeps the ids in range |
| WorldRules.GetEffect | game.py:285-296 | `get` succeeds exactly when the room still offers that item, appending it and clearing the room's offer; otherwise nothing changes |
| WorldRules.GetTwice | game.py:289-292 | a second `get` of the same item changes nothing |
| WorldRules.GoThroughExit | game.py:302-312 | through an exit only the player's room changes: the destination's requirement decides, a cleared Treasure Chamber sends on to the Victory Hall, and words after the direction are ignored |
| WorldRules.GoNowhere | game.py:322-323 | a direction that is no exit leaves the world unchanged, except `go enter ... chamber` at the Cave Mouth, which `EnterChamberGate` covers |
| WorldRules.EnterChamberGate | game.py:314-321 | `go enter ... chamber` at the Cave Mouth moves only with the key and an `enter chamber` exit, and never without that exit |
| WorldRules.UnlockNeverFires | game.py:233-238 | defeating an enemy only removes it from the room; no exit is ever added |
| WorldRules.IterateKeepsLayout | game.py:221-327 | no iteration changes a room's name, exits or requirement |
| WorldRules.RunKeepsLayout | game.py:217-329 | no session changes a room's name, exits or requirement |
| WorldRules.FledFightsAgain | game.py:240-243 | after a successful escape the player stays in the room with the enemy alive, so the next iteration fights again |
| WorldRules.CommandCapped | game.py:278-283 | a command keeps hp at most max hp and a living player alive, and never ends the session by death |
| WorldRules.IterateCapped | game.py:221-243 | an iteration entered alive ends with `Died` exactly when it leaves the player dead |
| WorldRules.RunDiedExactly | game.py:331-332 | a session ends with `Died`, the case that prints "GAME OVER", exactly when the player is down at the end |
| WorldRules.WonOnlyInVictoryHall | game.py:245-248 | a session is won only by standing in the Victory Hall |
| WorldRules.HallWins | game.py:245-248 | conversely, a living player in the Victory Hall with no live enemy there wins at once, before any line is read |
| WorldRules.Setup | game.py:131-162 | the world `setup_game` builds: the player 50/10/2 in the Quiet Village, four enemies, six rooms and their exits; `SetupExits`, `SetupRooms` and `SetupValid` state its contents |
| WorldRules.SetupExits | game.py:151-160 | the exits `setup_game` wires, lower-cased, and no way into the Treasure Chamber |
| WorldRules.SetupRooms | game.py:134-160 | the six rooms of the setup, with their enemies, item and exits |
| WorldRules.SetupValid | game.py:131-163 | every room id of the setup is in range |
| WorldRules.SetupFrontRooms | game.py:151-160 | the first four rooms lead only to one another and include neither the chamber nor the hall |
| WorldRules.GoConfined | game.py:300-323 | from the first four rooms of the setup layout, `go` stays among them |
| WorldRules.CommandConfined | game.py:245-327 | from there a command stays among them and does not win |
| WorldRules.IterateConfined | game.py:221-327 | from there an iteration stays among them and does not win |
| WorldRules.RunConfined | game.py:217-329 | from there a whole session stays among them and does not win |
| WorldRules.SetupNeverWon | game.py:131-332 | whatever is typed and however the coin falls, a session from the setup never reaches the Treasure Chamber and is never won |
| WorldRules.SetupChamberSealed | game.py:314-321 | at the Cave Mouth of any world reachable from the setup, `go enter chamber` leaves the player there, key or no key |
| Game.Character.constructor | game.py:26-31 | a character starts at full hp with the given attack and defense |
| Game.Character.IsAlive | game.py:33-34 | `is_alive` on the object: `Entities.Alive` of its value |
| Game.Character.Attack | game.py:36-44 | the target's hp drops by the damage, the damage is returned, and the attacker is unchanged |
| Game.Player.constructor | game.py:54-59 | a player starts with an empty inventory, 0 xp and level 1 |
| Game.Player.AddItem | game.py:61-63 | the item is appended; nothing else changes |
| Game.Player.HasItem | game.py:65-66 | `has_item`: the name is in the inventory |
| Game.Player.UseItem | game.py:68-79 | the player afterwards is `Entities.UseItem` of the player before |
| Game.Player.GainXp | game.py:81-86 | the player afterwards is `Entities.GainXp` of the player before |
| Game.Player.LevelUp | game.py:88-94 | the player afterwards is `Entities.LevelUp` of the player before |
| Game.Enemy.constructor | game.py:100-104 | an enemy starts at full hp with its reward and drops |
| Game.Room.constructor | game.py:108-115 | a room starts with no exits and its item not yet found |
| Game.Room.AddExit | game.py:117-118 | the lower-cased direction is written into the exits, replacing any earlier target; nothing else changes |
| Game.World.SetupModel | game.py:131-163 | the objects `setup_game` builds hold the value `Setup()` |
| Game.World.Get | game.py:285-296 | the objects afterwards hold `WorldRules.Get` of the world before |
| Game.World.Go | game.py:300-323 | the objects afterwards hold `WorldRules.Go` of the world before |
| Game.World.Dispatch | game.py:255-327 | the objects afterwards hold `WorldRules.Dispatch` of the world before; no enemy leaves its room |
| Game.World.ClearRoom | game.py:231-238 | the objects afterwards hold `WorldRules.Cleared` of the world before |
| Game.World.Command | game.py:245-327 | status, remaining input and objects afterwards are those of `WorldRules.Command` |
| Game.World.Iterate | game.py:221-243 | status, remaining input and objects afterwards are those of `WorldRules.Iterate` |
| Game.Collect | game.py:208-213 | the xp gain, then each drop appended in turn, give `Entities.Reward` |
| Game.Combat | game.py:166-214 | the loop over the two objects ends with the outcome, remaining input and stats of `CombatRules.Combat` |
| Game.Confront | game.py:226-227 | the forced fight leaves the player and the room's enemy as `CombatRules.Combat` says; no other object changes |
| Game.GameLoop | game.py:217-332 | the loop ends with the status, remaining input and world of `WorldRules.Run` |
| Game.SetupGame | game.py:131-163 | the new objects model `Setup()`: the hero of the given name in the Quiet Village, four enemies, six linked rooms |
| Game.SetupRooms | game.py:143-160 | the six rooms with their enemies, the Deep Forest's potion, and their exits |
| Game.LinkRooms | game.py:151-160 | the six `add_exit` calls of the setup |

## Left out

- `clear_screen`, `print_slow`, `show_stats`, the printing in `describe` and every message: terminal output, with no effect on the state.
- `time.sleep`: pacing only.
- `input()` and the hero's name prompt: each line is an `Entry`, and the name is a parameter of `Game.SetupGame`. The end of input, which Python reports by raising `EOFError`, becomes `OutOfInput` / `InputEnded`.
- `random.random() < 0.5` at game.py:193: the `escapes` flag of the line. Probabilities and floating point are not modelled.
- Text.Lower: lower-cases ASCII capitals only. Python's `str.lower()` also maps non-ASCII letters.
- `help`, `look`, `stats`, `inventory` and unknown commands: they only print. `WorldRules.Dispatch` leaves the world unchanged for them.
- Character names and room descriptions: kept as constants of the classes. The value layer leaves them out because they are only printed.
- The loop's references to `treasure_chamber` and `victory_hall` (game.py:238, 312) are locals of `setup_game` and would raise `NameError`. The world instead carries their room ids (`chamber`, `hall`). Line 238 is dead code (`UnlockNeverFires`), and line 312 never runs from the setup (`SetupNeverWon`).
- `Player.current_room` is `None` until `setup_game` sets it. The model starts it at room id 0, the room `setup_game` assigns.
- Exits name room objects in Python and room ids here. Objects are shared only through the `rooms` sequence of `World`.
- The `"error"` result of `combat` (game.py:214) is modelled. `CombatVerdict` shows it only arises when the fight is entered with someone already down, which `game_loop` never does.
- Game.Room.AddExit: states its new exits by the formula `WorldRules.AddExit` uses, not by calling that function.
- The `__main__` block (game.py:335-337): `Game.SetupGame` followed by `Game.GameLoop`.
- `setup_game` returns only the player, and the rooms are reachable through its `current_room`. `Game.SetupGame` returns a `World` that holds the player and the six rooms.
- The constructors of `Game.Character`, `Game.Enemy`, `Game.Player` and `Game.Room` take every argument explicitly. Python's defaults (`defense=0` of `Character` and `Player`, `xp_reward=10` and `drops=None` read as `[]` of `Enemy`, `enemy=None`, `item_to_find=None` and `requires_item=None` of `Room`) are not modelled: `setup_game` gives the character values in full, and where it leaves a room's enemy, item or requirement to its default, `SetupRooms` passes `null` or `None` explicitly.
