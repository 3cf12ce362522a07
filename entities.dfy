/**
 * The stats of the game's characters as values, and what attacking, using an
 * item and gaining experience do to them (classes Character, Player and Enemy
 * of game.py). Module Game keeps the same stats in objects and proves its
 * methods against these functions.
 */
module Entities {

  /** The fields every character has. Names are only ever printed, so they are not here. */
  datatype Fighter = Fighter(maxHp: int, hp: int, attackPower: int, defense: int)

  /** The player: a fighter with an ordered inventory (duplicates allowed), xp and a level. */
  datatype Hero = Hero(body: Fighter, inventory: seq<string>, xp: int, level: int)

  /** An enemy: a fighter with the xp it is worth and the items it drops, in order. */
  datatype Foe = Foe(body: Fighter, xpReward: int, drops: seq<string>)

  const HealthPotion: string := "health potion"
  const PotionHeal: int := 20
  const XpPerLevel: int := 100

  /** `is_alive`. */
  predicate Alive(f: Fighter) {
    f.hp > 0
  }

  /** Hp never above max hp: true of every character `__init__` builds, and kept by every
      operation below. */
  predicate Capped(f: Fighter) {
    f.hp <= f.maxHp
  }

  function Min(a: int, b: int): int {
    if a <= b then a else b
  }

  /** The damage of one attack: the attack power less the defense, never negative. */
  function Damage(attack: int, defense: int): (d: int)
    ensures d >= 0 && d >= attack - defense
    ensures d == 0 || d == attack - defense
  {
    var raw := attack - defense;
    if raw < 0 then 0 else raw
  }

  /** The target after `attacker.attack(target)`. */
  function Hit(attacker: Fighter, target: Fighter): Fighter {
    target.(hp := target.hp - Damage(attacker.attackPower, target.defense))
  }

  /** An attack lowers the target's hp by exactly the damage and changes nothing else;
      the target is defeated exactly when its hp did not exceed that damage. */
  lemma HitEffect(attacker: Fighter, target: Fighter)
    ensures var t := Hit(attacker, target);
      && t.hp == target.hp - Damage(attacker.attackPower, target.defense)
      && t.hp <= target.hp
      && t.maxHp == target.maxHp && t.attackPower == target.attackPower
      && t.defense == target.defense
      && (Alive(t) <==> target.hp > Damage(attacker.attackPower, target.defense))
  {
  }

  /** Hp is not floored at 0: an attack stronger than the remaining hp leaves it negative. */
  lemma HitNotFloored(attacker: Fighter, target: Fighter)
    requires Damage(attacker.attackPower, target.defense) > target.hp
    ensures Hit(attacker, target).hp < 0
  {
  }

  /** The index of the first occurrence of `x`. */
  function FirstIndex(s: seq<string>, x: string): (i: nat)
    requires x in s
    ensures i < |s| && s[i] == x
    ensures forall j :: 0 <= j < i ==> s[j] != x
  {
    if s[0] == x then 0
    else
      var j := FirstIndex(s[1..], x);
      assert forall k :: 1 <= k < j + 1 ==> s[k] == s[1..][k - 1];
      j + 1
  }

  /** `list.remove(x)`: drop the first occurrence of `x`, keep the rest in order. */
  function RemoveFirst(s: seq<string>, x: string): seq<string>
    requires x in s
  {
    var i := FirstIndex(s, x);
    s[..i] + s[i + 1..]
  }

  /** Exactly one copy of `x` leaves the list and nothing else does. */
  lemma RemoveFirstCount(s: seq<string>, x: string)
    requires x in s
    ensures |RemoveFirst(s, x)| == |s| - 1
    ensures multiset(RemoveFirst(s, x)) == multiset(s) - multiset{x}
  {
    var i := FirstIndex(s, x);
    assert s == s[..i] + [s[i]] + s[i + 1..];
    assert multiset(s) == multiset(s[..i]) + multiset{x} + multiset(s[i + 1..]);
  }

  /** `use_item(name)`: only a held health potion does anything. */
  function UseItem(h: Hero, name: string): Hero {
    if name == HealthPotion && HealthPotion in h.inventory then
      h.(body := h.body.(hp := Min(h.body.maxHp, h.body.hp + PotionHeal)),
         inventory := RemoveFirst(h.inventory, HealthPotion))
    else h
  }

  /** Drinking a held potion heals 20 hp, capped at max hp, and uses up exactly one potion. */
  lemma UsePotion(h: Hero)
    requires HealthPotion in h.inventory
    ensures var g := UseItem(h, HealthPotion);
      && g.body.hp == Min(h.body.maxHp, h.body.hp + PotionHeal)
      && g.body.maxHp == h.body.maxHp && g.body.attackPower == h.body.attackPower
      && g.body.defense == h.body.defense && g.xp == h.xp && g.level == h.level
      && |g.inventory| == |h.inventory| - 1
      && multiset(g.inventory) == multiset(h.inventory) - multiset{HealthPotion}
      && (h.body.hp <= h.body.maxHp ==> h.body.hp <= g.body.hp <= h.body.maxHp)
  {
    RemoveFirstCount(h.inventory, HealthPotion);
  }

  /** Any other name, or no potion held, changes nothing. */
  lemma UseItemOtherwise(h: Hero, name: string)
    requires name != HealthPotion || HealthPotion !in h.inventory
    ensures UseItem(h, name) == h
  {
  }

  /** `level_up`: one more level, xp reset to 0, 10 more max hp, full heal, +2 attack, +1 defense. */
  function LevelUp(h: Hero): Hero {
    var maxHp := h.body.maxHp + 10;
    Hero(Fighter(maxHp, maxHp, h.body.attackPower + 2, h.body.defense + 1), h.inventory, 0, h.level + 1)
  }

  /** `gain_xp(amount)`: add the xp, then level up once if it reaches 100 times the level. */
  function GainXp(h: Hero, amount: int): Hero {
    var g := h.(xp := h.xp + amount);
    if g.xp >= XpPerLevel * g.level then LevelUp(g) else g
  }

  /** Below the threshold only xp changes; at or above it the level rises by exactly one,
      however much xp was gained, the surplus is discarded and hp is fully restored. */
  lemma GainXpOnce(h: Hero, amount: int)
    ensures var g := GainXp(h, amount);
      && g.inventory == h.inventory
      && (h.xp + amount < XpPerLevel * h.level ==> g == h.(xp := h.xp + amount))
      && (h.xp + amount >= XpPerLevel * h.level ==>
            && g.level == h.level + 1 && g.xp == 0
            && g.body.maxHp == h.body.maxHp + 10 && g.body.hp == g.body.maxHp
            && g.body.attackPower == h.body.attackPower + 2 && g.body.defense == h.body.defense + 1)
  {
  }

  /** One call never raises the level by more than one, and a second threshold crossed by the
      same gain is not honoured: afterwards xp is 0, below the next threshold whenever the level is positive. */
  lemma GainXpAtMostOneLevel(h: Hero, amount: int)
    requires h.level >= 1
    ensures h.level <= GainXp(h, amount).level <= h.level + 1
    ensures GainXp(h, amount).level == h.level + 1 ==> GainXp(h, amount).xp < XpPerLevel * GainXp(h, amount).level
  {
  }

  /** What defeating `f` gives the player: its xp (`gain_xp`), then its drops appended in order. */
  function Reward(h: Hero, f: Foe): Hero {
    var g := GainXp(h, f.xpReward);
    g.(inventory := g.inventory + f.drops)
  }

  lemma RewardEffect(h: Hero, f: Foe)
    ensures Reward(h, f).inventory == h.inventory + f.drops
    ensures Reward(h, f).xp == GainXp(h, f.xpReward).xp
    ensures Reward(h, f).level == GainXp(h, f.xpReward).level
    ensures Reward(h, f).body == GainXp(h, f.xpReward).body
  {
  }
}
