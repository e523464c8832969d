/**
 * The skill-effect registry: each named effect is a handler from the
 * battle context to a partial update that the caller merges into its state
 * (`{ player, monster, battle, log }`, any part of which may be absent).
 */
module SkillEffects {
  import opened Common
  import opened GameTypes
  import opened Combat

  /** What a handler receives. */
  datatype Context = Context(
    dmg: int, player: Fighter, monster: Monster, battle: Battle, battleMaxHp: int, manaCost: int,
    log: seq<LogEntry>)

  /** The object a handler returns: an absent part is left as it was by the caller's merge. */
  datatype Update = Update(
    player: Option<Fighter>, monster: Option<Monster>, battle: Option<Battle>, log: Option<seq<LogEntry>>)

  /** `{}` */
  const NoUpdate: Update := Update(None, None, None, None)

  // ---------------------------------------------------------------------------
  // The handler families

  /** `Math.floor(x * pct / 100)` is never negative for a non-negative x. */
  lemma PctNonNegative(x: int, pct: nat)
    requires x >= 0
    ensures FloorFrac(x, pct, 100) >= 0
  {
    MulCancel(-1, FloorFrac(x, pct, 100), 100);
  }

  /** `recoil*`: lose `pct` % of max hp, but never drop below 1 hp. */
  function Recoil(c: Context, pct: nat, name: string): (u: Update)
    ensures u.player.Some? && u.monster.None? && u.battle.None?
    ensures u.player.value == c.player.(hp := u.player.value.hp)
    ensures u.player.value.hp >= 1
    ensures c.player.maxHp >= 0 && c.player.hp >= 1 ==> u.player.value.hp <= c.player.hp
    ensures u.log == Some(c.log + [LogEntry(name, "dmg-player")])
  {
    var recoil := FloorFrac(c.player.maxHp, pct, 100);
    assert c.player.maxHp >= 0 ==> recoil >= 0 by {
      if c.player.maxHp >= 0 { PctNonNegative(c.player.maxHp, pct); }
    }
    Update(Some(c.player.(hp := Max(1, c.player.hp - recoil))), None, None, Some(c.log + [LogEntry(name, "dmg-player")]))
  }

  /** A monster stat lowered by `Math.max(1, Math.floor(stat * pct / 100))` and floored at `least`. */
  function Reduced(stat: int, pct: nat, least: int): (r: int)
    ensures r >= least
    ensures r == least || r <= stat - 1
    ensures stat >= least ==> r <= stat
  {
    Max(least, stat - Max(1, FloorFrac(stat, pct, 100)))
  }

  /** `war_cry`, `weaken`, `freeze`, ...: lower the monster's attack, never below 1. */
  function ReduceAtk(c: Context, pct: nat, name: string): (u: Update)
    ensures u.player.None? && u.monster.Some? && u.battle.Some?
    ensures u.battle.value == c.battle.(monster := u.monster.value)
    ensures u.monster.value == c.monster.(atk := u.monster.value.atk)
    ensures u.monster.value.atk >= 1 && (c.monster.atk >= 1 ==> u.monster.value.atk <= c.monster.atk)
    ensures c.monster.atk > 1 ==> u.monster.value.atk < c.monster.atk
    ensures u.log == Some(c.log + [LogEntry(name, "info")])
  {
    var m := c.monster.(atk := Reduced(c.monster.atk, pct, 1));
    Update(None, Some(m), Some(c.battle.(monster := m)), Some(c.log + [LogEntry(name, "info")]))
  }

  /** `shred_def`, `quake`, `chain_lightning`: lower the monster's defence, never below 0. */
  function ReduceDef(c: Context, pct: nat, name: string): (u: Update)
    ensures u.player.None? && u.monster.Some? && u.battle.Some?
    ensures u.battle.value == c.battle.(monster := u.monster.value)
    ensures u.monster.value == c.monster.(def := u.monster.value.def)
    ensures u.monster.value.def >= 0 && (c.monster.def >= 0 ==> u.monster.value.def <= c.monster.def)
    ensures c.monster.def > 0 ==> u.monster.value.def < c.monster.def
    ensures u.log == Some(c.log + [LogEntry(name, "info")])
  {
    var m := c.monster.(def := Reduced(c.monster.def, pct, 0));
    Update(None, Some(m), Some(c.battle.(monster := m)), Some(c.log + [LogEntry(name, "info")]))
  }

  /** `blizzard`, `wither`: lower both attack (never below 1) and defence (never below 0). */
  function ReduceBoth(c: Context, pct: nat, name: string): (u: Update)
    ensures u.player.None? && u.monster.Some? && u.battle.Some?
    ensures u.battle.value == c.battle.(monster := u.monster.value)
    ensures u.monster.value == c.monster.(atk := u.monster.value.atk, def := u.monster.value.def)
    ensures u.monster.value.atk >= 1 && u.monster.value.def >= 0
    ensures c.monster.atk >= 1 ==> u.monster.value.atk <= c.monster.atk
    ensures c.monster.def >= 0 ==> u.monster.value.def <= c.monster.def
    ensures u.log == Some(c.log + [LogEntry(name, "info")])
  {
    var m := c.monster.(atk := Reduced(c.monster.atk, pct, 1), def := Reduced(c.monster.def, pct, 0));
    Update(None, Some(m), Some(c.battle.(monster := m)), Some(c.log + [LogEntry(name, "info")]))
  }

  /** An update of the battle record only. */
  function BattleOnly(c: Context, b: Battle, name: string): (u: Update)
    ensures u.player.None? && u.monster.None? && u.battle == Some(b)
  {
    Update(None, None, Some(b), Some(c.log + [LogEntry(name, "info")]))
  }

  /** The heal-on-hit effects: gain `heal` hp, never above the battle's max hp. */
  function Heal(c: Context, heal: int, name: string, kind: string): (u: Update)
    ensures u.player.Some? && u.monster.None? && u.battle.None?
    ensures u.player.value == c.player.(hp := u.player.value.hp)
    ensures u.player.value.hp <= c.battleMaxHp
    ensures heal >= 0 && c.player.hp <= c.battleMaxHp ==> c.player.hp <= u.player.value.hp
    ensures u.player.value.hp == c.battleMaxHp || u.player.value.hp == c.player.hp + heal
    ensures u.log == Some(c.log + [LogEntry(name, kind)])
  {
    Update(Some(c.player.(hp := Min(c.battleMaxHp, c.player.hp + heal))), None, None, Some(c.log + [LogEntry(name, kind)]))
  }

  /** The mana effects: gain `gain` mana, never above the player's max mana. */
  function RestoreMana(c: Context, gain: int, name: string): (u: Update)
    ensures u.player.Some? && u.monster.None? && u.battle.None?
    ensures u.player.value == c.player.(mana := u.player.value.mana)
    ensures u.player.value.mana <= c.player.maxMana
    ensures gain >= 0 && c.player.mana <= c.player.maxMana ==> c.player.mana <= u.player.value.mana
    ensures u.log == Some(c.log + [LogEntry(name, "heal")])
  {
    Update(Some(c.player.(mana := Min(c.player.maxMana, c.player.mana + gain))), None, None, Some(c.log + [LogEntry(name, "heal")]))
  }

  // ---------------------------------------------------------------------------
  // EFFECT_HANDLERS

  /** The kinds of handler the registry holds, with the constants each entry uses. */
  datatype Effect =
    | RecoilPct(pct: nat)          // lose pct % of max hp
    | CutAtk(pct: nat)             // lower monster attack by pct %
    | CutDef(pct: nat)             // lower monster defence by pct %
    | CutBoth(pct: nat)            // both
    | SetPoison(turns: int)        // poison for exactly `turns`
    | ExtendPoison(turns: int)     // poison for at least `turns`
    | SetDoom(turns: int)
    | DodgeNext
    | DodgeCharges(charges: int)
    | DrainPct(pct: nat)           // heal pct % of the damage dealt
    | RallyHeal
    | HeroicMana
    | ManaRefund
    | ArmorBreak
    | Avatar
    | BloodNova
    | CorpseExplode
    | Apocalypse
    | ShieldSlam
    | NoOp                         // registered, handled by the damage formulas

  /** `EFFECT_HANDLERS`, after the loop that registers the no-ops. */
  const EffectHandlers: map<string, Effect> := map[
    "recoil_small" := RecoilPct(5), "recoil_heavy" := RecoilPct(20),
    "recoil_extreme" := RecoilPct(30), "recoil" := RecoilPct(10),
    "war_cry" := CutAtk(25), "weaken" := CutAtk(15), "weaken_15" := CutAtk(15),
    "freeze" := CutAtk(20), "frost_nova" := CutAtk(30), "cheap_shot" := CutAtk(20),
    "shred_def" := CutDef(40), "quake" := CutDef(30), "chain_lightning" := CutDef(25),
    "blizzard" := CutBoth(15), "wither" := CutBoth(25),
    "apply_poison" := SetPoison(3), "apply_poison_short" := ExtendPoison(2),
    "strong_poison" := SetPoison(4), "strong_poison_3" := ExtendPoison(3), "doom" := SetDoom(3),
    "shadow_dance" := DodgeNext, "shadow_dance_2" := DodgeCharges(2), "phantom_blade" := DodgeNext,
    "final_stand" := DrainPct(30), "soul_harvest" := DrainPct(60), "drain" := DrainPct(40),
    "full_drain" := DrainPct(100), "army_drain" := DrainPct(40), "rally_heal" := RallyHeal,
    "heroic_mana" := HeroicMana, "mana_refund" := ManaRefund,
    "armor_break" := ArmorBreak, "avatar" := Avatar, "blood_nova" := BloodNova,
    "corpse_explode" := CorpseExplode, "nec_apocalypse" := Apocalypse, "shield_slam" := ShieldSlam,
    "true_damage" := NoOp, "pierce" := NoOp, "pierce_20" := NoOp, "pierce_25" := NoOp,
    "pierce_30" := NoOp, "pierce_40" := NoOp, "pierce_50" := NoOp,
    "execute" := NoOp, "execute_25" := NoOp, "counter" := NoOp]

  /** `hasEffect(effectName)` */
  predicate HasEffect(name: string)
  {
    name in EffectHandlers
  }

  /** Runs one handler; `name` is the effect's name, used for its log entry. */
  function Handle(e: Effect, name: string, c: Context): (u: Update)
    ensures e.NoOp? <==> u == NoUpdate
  {
    match e
    case RecoilPct(pct) => Recoil(c, pct, name)
    case CutAtk(pct) => ReduceAtk(c, pct, name)
    case CutDef(pct) => ReduceDef(c, pct, name)
    case CutBoth(pct) => ReduceBoth(c, pct, name)
    case SetPoison(t) => BattleOnly(c, c.battle.(monsterPoisonTurns := t), name)
    case ExtendPoison(t) => BattleOnly(c, c.battle.(monsterPoisonTurns := Max(c.battle.monsterPoisonTurns, t)), name)
    case SetDoom(t) => BattleOnly(c, c.battle.(monsterDoomTurns := t), name)
    case DodgeNext => BattleOnly(c, c.battle.(dodgeNextTurn := true), name)
    case DodgeCharges(n) => BattleOnly(c, c.battle.(dodgeCharges := n), name)
    case DrainPct(pct) => Heal(c, FloorFrac(c.dmg, pct, 100), name, "heal")
    case RallyHeal => Heal(c, FloorFrac(c.battleMaxHp, 20, 100), name, "heal")
    case HeroicMana => RestoreMana(c, 5, name)
    case ManaRefund => RestoreMana(c, FloorFrac(c.manaCost, 1, 2), name)
    case ArmorBreak =>
      var m := c.monster.(def := 0);
      Update(None, Some(m), Some(c.battle.(armorBreakTurns := 2, monster := m)), Some(c.log + [LogEntry(name, "info")]))
    case Avatar => BattleOnly(c, c.battle.(avatarTurns := 3), name)
    case BloodNova =>
      var heal := FloorFrac(c.dmg, 25, 100);
      var recoil := FloorFrac(c.player.maxHp, 10, 100);
      Update(Some(c.player.(hp := Min(c.battleMaxHp, Max(1, c.player.hp + heal - recoil)))), None, None,
             Some(c.log + [LogEntry(name, "info")]))
    case CorpseExplode =>
      if c.battle.monsterPoisonTurns > 0 then
        var m := c.monster.(hp := Max(0, c.monster.hp - FloorFrac(c.dmg, 1, 2)));
        Update(None, Some(m), Some(c.battle.(monster := m)), Some(c.log + [LogEntry(name, "dmg-monster")]))
      else Update(None, Some(c.monster), Some(c.battle), Some(c.log))
    case Apocalypse =>
      var h := Heal(c, FloorFrac(c.dmg, 30, 100), name, "info");
      h.(battle := Some(c.battle.(monsterDoomTurns := 4)))
    case ShieldSlam => Update(None, None, None, Some(c.log + [LogEntry(name, "info")]))
    case NoOp => NoUpdate
  }

  /**
   * `applySkillEffect(effectName, context)`: the registered handler's update;
   * `{}` exactly for an unknown name or a registered no-op.
   */
  function ApplySkillEffect(name: string, c: Context): (u: Update)
    ensures u == NoUpdate <==> !HasEffect(name) || EffectHandlers[name].NoOp?
  {
    if name in EffectHandlers then Handle(EffectHandlers[name], name, c) else NoUpdate
  }

  // ---------------------------------------------------------------------------
  // Properties of the registry

  /** Every recoil effect leaves the player at 1 hp or more, and never heals. */
  lemma RecoilNeverKills(name: string, c: Context)
    requires name in EffectHandlers && EffectHandlers[name].RecoilPct?
    ensures var u := ApplySkillEffect(name, c);
      u.player.Some? && u.player.value.hp >= 1 &&
      (c.player.maxHp >= 0 && c.player.hp >= 1 ==> u.player.value.hp <= c.player.hp)
  {
  }

  /**
   * Every attack-lowering effect (blizzard and wither included) leaves the
   * monster's attack at 1 or more, and takes at least 1 off an attack above 1.
   */
  lemma AtkCutsKeepOne(name: string, c: Context)
    requires name in EffectHandlers && (EffectHandlers[name].CutAtk? || EffectHandlers[name].CutBoth?)
    ensures var u := ApplySkillEffect(name, c);
      u.monster.Some? && u.battle.Some? && u.battle.value.monster == u.monster.value &&
      u.monster.value.atk >= 1 &&
      (c.monster.atk > 1 && EffectHandlers[name].CutAtk? ==> u.monster.value.atk < c.monster.atk) &&
      (c.monster.atk >= 1 ==> u.monster.value.atk <= c.monster.atk)
  {
  }

  /** Every defence-lowering effect leaves the monster's defence at 0 or more; armour break sets it to 0 for 2 turns. */
  lemma DefCutsKeepZero(name: string, c: Context)
    requires name in EffectHandlers
    requires EffectHandlers[name].CutDef? || EffectHandlers[name].CutBoth? || EffectHandlers[name].ArmorBreak?
    ensures var u := ApplySkillEffect(name, c);
      u.monster.Some? && u.battle.Some? && u.battle.value.monster == u.monster.value &&
      u.monster.value.def >= 0 &&
      (c.monster.def >= 0 ==> u.monster.value.def <= c.monster.def)
    ensures EffectHandlers[name].ArmorBreak? ==>
      var u := ApplySkillEffect(name, c);
      u.monster.value.def == 0 && u.battle.value.armorBreakTurns == 2
  {
  }

  /** No heal-on-hit effect (Apocalypse and Blood Nova included) raises hp above the battle's max hp. */
  lemma HealsCapped(name: string, c: Context)
    requires name in EffectHandlers
    requires var e := EffectHandlers[name]; e.DrainPct? || e.RallyHeal? || e.Apocalypse? || e.BloodNova?
    ensures var u := ApplySkillEffect(name, c);
      u.player.Some? && u.player.value.hp <= c.battleMaxHp &&
      (c.dmg >= 0 && c.battleMaxHp >= 0 && c.player.hp <= c.battleMaxHp && !EffectHandlers[name].BloodNova? ==>
         c.player.hp <= u.player.value.hp)
  {
    var e := EffectHandlers[name];
    if e.RallyHeal? && c.battleMaxHp >= 0 {
      PctNonNegative(c.battleMaxHp, 20);
    }
    if e.DrainPct? && c.dmg >= 0 {
      PctNonNegative(c.dmg, e.pct);
    }
    if e.Apocalypse? && c.dmg >= 0 {
      PctNonNegative(c.dmg, 30);
    }
  }

  /** The mana effects never raise mana above the player's max mana. */
  lemma ManaCapped(name: string, c: Context)
    requires name in EffectHandlers && (EffectHandlers[name].HeroicMana? || EffectHandlers[name].ManaRefund?)
    ensures var u := ApplySkillEffect(name, c);
      u.player.Some? && u.player.value.mana <= c.player.maxMana &&
      (c.manaCost >= 0 && c.player.mana <= c.player.maxMana ==> c.player.mana <= u.player.value.mana)
  {
    if c.manaCost >= 0 {
      PctNonNegative(c.manaCost, 50);
    }
  }

  /**
   * The poisons: a fixed-length poison sets exactly its turns; an extending
   * one never shortens a longer poison already running.
   */
  lemma PoisonTurns(name: string, c: Context)
    requires name in EffectHandlers && (EffectHandlers[name].SetPoison? || EffectHandlers[name].ExtendPoison?)
    ensures var u := ApplySkillEffect(name, c); var e := EffectHandlers[name];
      u.player.None? && u.monster.None? && u.battle.Some? &&
      u.battle.value == c.battle.(monsterPoisonTurns := u.battle.value.monsterPoisonTurns) &&
      (e.SetPoison? ==> u.battle.value.monsterPoisonTurns == e.turns) &&
      (e.ExtendPoison? ==> u.battle.value.monsterPoisonTurns == Max(c.battle.monsterPoisonTurns, e.turns) &&
                           u.battle.value.monsterPoisonTurns >= c.battle.monsterPoisonTurns)
  {
  }

  /**
   * Corpse Explosion hurts only a poisoned monster, by half the damage
   * dealt, and never below 0 hp; on a clean monster nothing changes.
   */
  lemma CorpseExplodeOnlyWhenPoisoned(name: string, c: Context)
    requires name in EffectHandlers && EffectHandlers[name].CorpseExplode?
    ensures var u := ApplySkillEffect(name, c);
      u.player.None? && u.monster.Some? && u.battle.Some? &&
      (c.battle.monsterPoisonTurns <= 0 ==> u.monster.value == c.monster && u.battle.value == c.battle && u.log == Some(c.log)) &&
      (c.battle.monsterPoisonTurns > 0 ==>
         u.monster.value == c.monster.(hp := Max(0, c.monster.hp - c.dmg / 2)) &&
         u.battle.value == c.battle.(monster := u.monster.value)) &&
      (c.monster.hp >= 0 ==> u.monster.value.hp >= 0)
  {
  }

  /** The pierce, execute, true-damage and counter effects are registered, and change nothing. */
  lemma NoOpsRegistered(c: Context)
    ensures forall n :: n in {"true_damage", "pierce", "pierce_20", "pierce_25", "pierce_30", "pierce_40",
                              "pierce_50", "execute", "execute_25", "counter"} ==>
      HasEffect(n) && ApplySkillEffect(n, c) == NoUpdate
  {
  }
}
