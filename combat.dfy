/**
 * One fight between the player and an enemy (`combat`, game.py:166-214) as a
 * function of the lines the player types. Module Game runs the same fight as a
 * loop over Player and Enemy objects and proves it equal to `Combat` below.
 */
module CombatRules {
  import opened Text
  import opened Entities

  /** One line of input. `escapes` is the coin flip `random.random() < 0.5` that the game
      draws if this line is an `r` combat action; it is ignored for every other line. */
  datatype Entry = Entry(line: string, escapes: bool)

  /** `Ongoing` is a round that ended with both alive; the others end the fight.
      `OutOfInput` is the end of input at a prompt (Python raises EOFError there);
      `Error` is the "error" returned when the fight is entered with someone already down. */
  datatype Outcome = Ongoing | Fled | PlayerDead | EnemyDead | OutOfInput | Error

  /** The state after a round or a fight, with the input it did not consume. */
  datatype Fight = Fight(hero: Hero, foe: Foe, outcome: Outcome, rest: seq<Entry>)

  const Cancel: string := "cancel"

  /** `enemy.attack(player)`. */
  function Counter(f: Foe, h: Hero): Hero {
    h.(body := Hit(f.body, h.body))
  }

  /** `if enemy.is_alive(): enemy.attack(player)`. */
  function CounterIfAlive(f: Foe, h: Hero): Hero {
    if Alive(f.body) then Counter(f, h) else h
  }

  /** The player's action and the enemy's reply (game.py:172-203): one line, or two when the
      item prompt is shown. */
  function Exchange(h: Hero, f: Foe, input: seq<Entry>): (r: Fight)
    requires input != []
    ensures r.outcome == Ongoing || r.outcome == Fled || r.outcome == OutOfInput
    ensures |r.rest| < |input| && r.rest == input[|input| - |r.rest|..]
    ensures |input| - 2 <= |r.rest|
    ensures r.foe.xpReward == f.xpReward && r.foe.drops == f.drops
  {
    var action := Lower(input[0].line);
    var rest := input[1..];
    if action == "a" then
      var foe := f.(body := Hit(h.body, f.body));
      Fight(CounterIfAlive(foe, h), foe, Ongoing, rest)
    else if action == "u" then
      if h.inventory != [] then
        if rest == [] then Fight(h, f, OutOfInput, rest)
        else
          var choice := Lower(rest[0].line);
          assert rest[1..] == input[2..];
          if choice != Cancel then Fight(CounterIfAlive(f, UseItem(h, choice)), f, Ongoing, rest[1..])
          else Fight(h, f, Ongoing, rest[1..])
      else Fight(CounterIfAlive(f, h), f, Ongoing, rest)
    else if action == "r" then
      if input[0].escapes then Fight(h, f, Fled, rest)
      else Fight(Counter(f, h), f, Ongoing, rest)
    else Fight(CounterIfAlive(f, h), f, Ongoing, rest)
  }

  /** The end-of-round checks (game.py:205-213): the player's death first, then the enemy's,
      which pays out the reward. */
  function Settle(h: Hero, f: Foe, rest: seq<Entry>): Fight {
    if !Alive(h.body) then Fight(h, f, PlayerDead, rest)
    else if !Alive(f.body) then Fight(Reward(h, f), f, EnemyDead, rest)
    else Fight(h, f, Ongoing, rest)
  }

  /** One pass of the combat loop body. */
  function Round(h: Hero, f: Foe, input: seq<Entry>): (r: Fight)
    requires input != []
    ensures |r.rest| < |input| && r.rest == input[|input| - |r.rest|..]
    ensures r.foe.xpReward == f.xpReward && r.foe.drops == f.drops
  {
    var x := Exchange(h, f, input);
    if x.outcome == Ongoing then Settle(x.hero, x.foe, x.rest) else x
  }

  /** `combat(player, enemy)`: rounds while both are alive. */
  function Combat(h: Hero, f: Foe, input: seq<Entry>): (r: Fight)
    ensures r.outcome != Ongoing
    ensures |r.rest| <= |input|
    ensures Alive(h.body) && Alive(f.body) ==> r.outcome != Error
    ensures r.outcome == Fled || r.outcome == PlayerDead || r.outcome == EnemyDead ==> |r.rest| < |input|
    decreases |input|
  {
    if !(Alive(h.body) && Alive(f.body)) then Fight(h, f, Error, input)
    else if input == [] then Fight(h, f, OutOfInput, input)
    else
      var r := Round(h, f, input);
      if r.outcome == Ongoing then Combat(r.hero, r.foe, r.rest) else r
  }

  /** A fight reads its lines from the front: what it leaves is a suffix of the input. */
  lemma {:induction false} CombatSuffix(h: Hero, f: Foe, input: seq<Entry>)
    ensures var r := Combat(h, f, input); r.rest == input[|input| - |r.rest|..]
    decreases |input|
  {
    if Alive(h.body) && Alive(f.body) && input != [] {
      var r := Round(h, f, input);
      if r.outcome == Ongoing {
        CombatSuffix(r.hero, r.foe, r.rest);
        var k := |input| - |r.rest|;
        assert input[k..][|r.rest| - |Combat(r.hero, r.foe, r.rest).rest|..]
            == input[k + |r.rest| - |Combat(r.hero, r.foe, r.rest).rest|..];
      }
    }
  }

  /** `a`: the player strikes first; the enemy strikes back only if it survived. */
  lemma AttackExchange(h: Hero, f: Foe, input: seq<Entry>)
    requires input != [] && Lower(input[0].line) == "a"
    ensures var x := Exchange(h, f, input);
      && x.outcome == Ongoing && x.rest == input[1..]
      && x.foe.body == Hit(h.body, f.body)
      && x.hero == (if Alive(x.foe.body) then Counter(x.foe, h) else h)
  {
  }

  /** `r`: a successful escape ends the fight untouched; a failed one costs an enemy attack. */
  lemma RunExchange(h: Hero, f: Foe, input: seq<Entry>)
    requires input != [] && Lower(input[0].line) == "r"
    ensures var x := Exchange(h, f, input);
      && x.rest == input[1..] && x.foe == f
      && (input[0].escapes ==> x.outcome == Fled && x.hero == h)
      && (!input[0].escapes ==> x.outcome == Ongoing && x.hero == Counter(f, h))
  {
  }

  /** `u` with an item that is not `cancel` consumes the round: the item is tried, then the
      enemy attacks if alive. `u` then `cancel` costs nothing: nobody attacks. */
  lemma UseExchange(h: Hero, f: Foe, input: seq<Entry>)
    requires |input| >= 2 && Lower(input[0].line) == "u" && h.inventory != []
    ensures var x := Exchange(h, f, input);
      && x.outcome == Ongoing && x.rest == input[2..] && x.foe == f
      && (Lower(input[1].line) == Cancel ==> x.hero == h)
      && (Lower(input[1].line) != Cancel ==> x.hero == CounterIfAlive(f, UseItem(h, Lower(input[1].line))))
  {
  }

  /** `u` with an empty inventory, and any line that is not an action, are penalised: only the
      enemy acts, if alive, and no second line is read. */
  lemma FumbleExchange(h: Hero, f: Foe, input: seq<Entry>)
    requires input != []
    requires var a := Lower(input[0].line); (a == "u" && h.inventory == []) || (a != "a" && a != "u" && a != "r")
    ensures Exchange(h, f, input) == Fight(CounterIfAlive(f, h), f, Ongoing, input[1..])
  {
  }

  /** The item prompt is the only place a fight can meet the end of the input halfway
      through an action: `u` with items held on the last line. */
  lemma ItemPromptAtEnd(h: Hero, f: Foe, input: seq<Entry>)
    requires input != []
    ensures Exchange(h, f, input).outcome == OutOfInput <==>
      Lower(input[0].line) == "u" && h.inventory != [] && |input| == 1
  {
  }

  /** From a round both enter alive, at most one of the two falls, so checking the player's
      death before the enemy's never hides a kill; a defeated enemy pays out its reward. */
  lemma RoundVerdict(h: Hero, f: Foe, input: seq<Entry>)
    requires input != [] && Alive(h.body) && Alive(f.body)
    ensures var x := Exchange(h, f, input);
      var r := Round(h, f, input);
      && !(!Alive(x.hero.body) && !Alive(x.foe.body))
      && (x.outcome == Ongoing && !Alive(x.hero.body) ==> r == Fight(x.hero, x.foe, PlayerDead, x.rest))
      && (x.outcome == Ongoing && !Alive(x.foe.body) ==>
            r == Fight(Reward(x.hero, x.foe), x.foe, EnemyDead, x.rest))
      && (x.outcome == Ongoing && Alive(x.hero.body) && Alive(x.foe.body) ==> r == x)
      && (x.outcome != Ongoing ==> r == x)
  {
  }

  /** What each way out of a fight means. The enemy keeps its reward and drops, the fight
      is entered only with both alive, and an enemy victory appends every drop, in order,
      to the player's inventory. */
  lemma {:induction false} CombatVerdict(h: Hero, f: Foe, input: seq<Entry>)
    ensures var r := Combat(h, f, input);
      && r.foe.xpReward == f.xpReward && r.foe.drops == f.drops
      && (r.outcome == Error <==> !(Alive(h.body) && Alive(f.body)))
      && (r.outcome == Error ==> r.hero == h && r.foe == f && r.rest == input)
      && (r.outcome == PlayerDead ==> !Alive(r.hero.body) && Alive(r.foe.body))
      && (r.outcome == EnemyDead ==>
            && !Alive(r.foe.body)
            && |r.foe.drops| <= |r.hero.inventory|
            && r.hero.inventory[|r.hero.inventory| - |r.foe.drops|..] == r.foe.drops)
      && (r.outcome == Fled ==> Alive(r.hero.body) && Alive(r.foe.body))
      && (r.outcome == OutOfInput ==> r.rest == [] && Alive(r.hero.body) && Alive(r.foe.body))
    decreases |input|
  {
    if !(Alive(h.body) && Alive(f.body)) || input == [] {
    } else {
      var x := Exchange(h, f, input);
      RoundVerdict(h, f, input);
      var r := Round(h, f, input);
      if r.outcome == Ongoing {
        CombatVerdict(r.hero, r.foe, r.rest);
      } else if r.outcome == EnemyDead {
        RewardEffect(x.hero, x.foe);
        var inv := r.hero.inventory;
        assert inv == x.hero.inventory + f.drops;
        assert inv[|inv| - |f.drops|..] == f.drops;
      } else if r.outcome == OutOfInput {
        assert |x.rest| < |input| - 1 || x.rest == input[1..];
      }
    }
  }

  /** A round both enter alive keeps the player's hp capped, and leaves the player alive
      exactly when it does not end in `PlayerDead`: a level-up on victory restores at least
      the 10 hp it adds to a positive max hp, and a potion never lowers hp. */
  lemma RoundCapped(h: Hero, f: Foe, input: seq<Entry>)
    requires input != [] && Capped(h.body) && Alive(h.body) && Alive(f.body)
    ensures var r := Round(h, f, input);
      && Capped(r.hero.body)
      && (Alive(r.hero.body) <==> r.outcome != PlayerDead)
  {
    var x := Exchange(h, f, input);
    if |input| >= 2 && Lower(input[0].line) == "u" && h.inventory != [] {
      var choice := Lower(input[1].line);
      if choice == HealthPotion && HealthPotion in h.inventory {
        UsePotion(h);
      } else {
        UseItemOtherwise(h, choice);
      }
    }
    assert Capped(x.hero.body);
    if x.outcome == Ongoing && Alive(x.hero.body) && !Alive(x.foe.body) {
      GainXpOnce(x.hero, x.foe.xpReward);
      RewardEffect(x.hero, x.foe);
    }
  }

  /** Over a whole fight the cap holds, and a player who enters alive leaves it dead exactly
      when the outcome is `PlayerDead`. */
  lemma {:induction false} CombatCapped(h: Hero, f: Foe, input: seq<Entry>)
    requires Capped(h.body)
    ensures var r := Combat(h, f, input);
      && Capped(r.hero.body)
      && (Alive(h.body) ==> (Alive(r.hero.body) <==> r.outcome != PlayerDead))
    decreases |input|
  {
    if Alive(h.body) && Alive(f.body) && input != [] {
      RoundCapped(h, f, input);
      var r := Round(h, f, input);
      if r.outcome == Ongoing {
        CombatCapped(r.hero, r.foe, r.rest);
      }
    }
  }

  /** The player set up at game.py:134 against the goblin of game.py:137. */
  const Newcomer: Hero := Hero(Fighter(50, 50, 10, 2), [], 0, 1)
  const Goblin: Foe := Foe(Fighter(20, 20, 5, 1), 20, [HealthPotion])

  /** Three `a` rounds: the goblin falls to -7 on the third, the player ends at 44 hp with
      20 xp and the goblin's health potion. */
  lemma GoblinFight()
    ensures Combat(Newcomer, Goblin, [Entry("a", false), Entry("a", false), Entry("a", false)])
      == Fight(Hero(Fighter(50, 44, 10, 2), [HealthPotion], 20, 1),
               Foe(Fighter(20, -7, 5, 1), 20, [HealthPotion]), EnemyDead, [])
  {
    var a := Entry("a", false);
    LowerFixesLowercase("a");
    var h1 := Hero(Fighter(50, 47, 10, 2), [], 0, 1);
    var f1 := Foe(Fighter(20, 11, 5, 1), 20, [HealthPotion]);
    assert Round(Newcomer, Goblin, [a, a, a]) == Fight(h1, f1, Ongoing, [a, a]);
    var h2 := Hero(Fighter(50, 44, 10, 2), [], 0, 1);
    var f2 := Foe(Fighter(20, 2, 5, 1), 20, [HealthPotion]);
    assert Round(h1, f1, [a, a]) == Fight(h2, f2, Ongoing, [a]);
    var f3 := Foe(Fighter(20, -7, 5, 1), 20, [HealthPotion]);
    assert Exchange(h2, f2, [a]) == Fight(h2, f3, Ongoing, []);
    assert Round(h2, f2, [a]) == Fight(Reward(h2, f3), f3, EnemyDead, []);
  }
}
