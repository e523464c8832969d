/**
 * The player's base: its initial state, the passive buffs of the chamber's
 * sub-upgrades, the timed experience boost of the inn, and material items
 * for the inventory. Fractional bonuses of the source (`healBonus: 0.25`,
 * `expBonus: 0.10`) are whole hundredths here; the clock arrives as `now`
 * and the next `uid()` as `id`.
 */
module BaseData {
  import opened Common

  // ---------------------------------------------------------------------------
  // Base state

  datatype Building = Building(built: bool, level: int)
  datatype Mission = Mission(missionId: string, startTime: int, duration: int)
  datatype FrozenGold = FrozenGold(amount: int, startTime: int, duration: int, interestPct: int)
  datatype Loan = Loan(amount: int, dueTime: int)
  datatype InnBoost = InnBoost(expBonusPct: int, startTime: int, duration: int, boostName: string)
  datatype CraftJob = CraftJob(recipeId: string, building: string, startTime: int, craftTime: int)

  /** A base; `chamberUpgrades` is None where a save lacks the field. */
  datatype Base = Base(
    buildings: map<string, Building>, materials: map<string, int>, fuel: int, fuelLastUpdate: Option<int>,
    activeMission: Option<Mission>, bankDeposit: int, frozenGold: Option<FrozenGold>, loan: Option<Loan>,
    sparringDummy: Option<string>, sparringHp: int, chamberUpgrades: Option<map<string, int>>,
    innLevel: int, innBoost: Option<InnBoost>, craftingQueue: Option<CraftJob>)

  /** `createInitialBase()`: nothing built, stored, borrowed, queued or boosted. */
  function InitialBase(): (b: Base)
    ensures b.buildings == map[] && b.materials == map[] && b.fuel == 0 && b.fuelLastUpdate.None?
    ensures b.activeMission.None? && b.bankDeposit == 0 && b.frozenGold.None? && b.loan.None?
    ensures b.sparringDummy.None? && b.sparringHp == 0 && b.chamberUpgrades == Some(map[])
    ensures b.innLevel == 0 && b.innBoost.None? && b.craftingQueue.None?
  {
    Base(map[], map[], 0, None, None, 0, None, None, None, 0, Some(map[]), 0, None, None)
  }

  // ---------------------------------------------------------------------------
  // getChamberBuffs(base)

  /** The chamber's buffs; `healBonus` in hundredths (a missing value of a level is 0). */
  datatype Buffs = Buffs(atk: int, def: int, hp: int, mana: int, healBonus: int, wisdom: int)

  function NoBuffs(): Buffs { Buffs(0, 0, 0, 0, 0, 0) }

  function Add(a: Buffs, b: Buffs): Buffs
  {
    Buffs(a.atk + b.atk, a.def + b.def, a.hp + b.hp, a.mana + b.mana, a.healBonus + b.healBonus, a.wisdom + b.wisdom)
  }

  lemma AddNothing(b: Buffs)
    ensures Add(b, NoBuffs()) == b && Add(NoBuffs(), b) == b
  {
  }

  /** One of the chamber's sub-upgrades and the buffs of each of its levels, level 1 first. */
  datatype SubUpgrade = SubUpgrade(id: string, levels: seq<Buffs>)

  /** `BUILDINGS.chamber.subUpgrades`, in declaration order. */
  const Bed: SubUpgrade :=
    SubUpgrade("bed", [Buffs(0, 0, 0, 0, 10, 0), Buffs(0, 0, 0, 0, 25, 0), Buffs(0, 0, 0, 0, 50, 0)])
  const Kitchen: SubUpgrade :=
    SubUpgrade("kitchen", [Buffs(2, 0, 0, 0, 0, 0), Buffs(5, 2, 0, 0, 0, 0), Buffs(10, 5, 20, 0, 0, 0)])
  const Study: SubUpgrade :=
    SubUpgrade("study", [Buffs(0, 0, 0, 0, 0, 2), Buffs(0, 0, 0, 10, 0, 5), Buffs(0, 0, 0, 25, 0, 10)])

  const ChamberSubUpgrades: seq<SubUpgrade> := [Bed, Kitchen, Study]

  /** `upgrades[subId] || 0` */
  function UpgradeLevel(upgrades: map<string, int>, subId: string): int
  {
    if subId in upgrades then upgrades[subId] else 0
  }

  /**
   * What one sub-upgrade adds at a level: nothing at level 0 or below or
   * past its last level, otherwise exactly that level's buffs.
   */
  function Contribution(sub: SubUpgrade, level: int): (b: Buffs)
    ensures level <= 0 || level > |sub.levels| ==> b == NoBuffs()
    ensures 0 < level <= |sub.levels| ==> b == sub.levels[level - 1]
  {
    if 0 < level <= |sub.levels| then sub.levels[level - 1] else NoBuffs()
  }

  /** The buffs of the first n sub-upgrades at the levels of `upgrades`. */
  function BuffsOf(subs: seq<SubUpgrade>, upgrades: map<string, int>, n: nat): Buffs
    requires n <= |subs|
  {
    if n == 0 then NoBuffs()
    else Add(BuffsOf(subs, upgrades, n - 1), Contribution(subs[n - 1], UpgradeLevel(upgrades, subs[n - 1].id)))
  }

  /** `base?.chamberUpgrades || {}` */
  function Upgrades(base: Option<Base>): map<string, int>
  {
    if base.Some? && base.value.chamberUpgrades.Some? then base.value.chamberUpgrades.value else map[]
  }

  /** `getChamberBuffs(base)` as a value. */
  function ChamberBuffs(base: Option<Base>): Buffs
  {
    BuffsOf(ChamberSubUpgrades, Upgrades(base), |ChamberSubUpgrades|)
  }

  /**
   * `getChamberBuffs(base)`: starts from zero and, for each sub-upgrade with
   * a positive level that has data, adds that level's buffs.
   */
  method GetChamberBuffs(base: Option<Base>) returns (buffs: Buffs)
    ensures buffs == ChamberBuffs(base)
  {
    var upgrades := if base.Some? && base.value.chamberUpgrades.Some? then base.value.chamberUpgrades.value else map[];
    buffs := AccumulateBuffs(ChamberSubUpgrades, upgrades);
  }

  /** The loop of `getChamberBuffs` over a list of sub-upgrades. */
  method AccumulateBuffs(subs: seq<SubUpgrade>, upgrades: map<string, int>) returns (buffs: Buffs)
    ensures buffs == BuffsOf(subs, upgrades, |subs|)
  {
    buffs := NoBuffs();
    for i := 0 to |subs|
      invariant buffs == BuffsOf(subs, upgrades, i)
    {
      var sub := subs[i];
      var level := if sub.id in upgrades then upgrades[sub.id] else 0;
      ghost var next := BuffsOf(subs, upgrades, i + 1);
      assert next == Add(buffs, Contribution(sub, level));
      if level > 0 && level - 1 < |sub.levels| {
        var levelData := sub.levels[level - 1];
        buffs := Add(buffs, levelData);
      } else {
        AddNothing(buffs);
      }
    }
  }

  /** Sub-upgrades not named in `upgrades` add nothing. */
  lemma {:induction false} UnnamedAddNothing(subs: seq<SubUpgrade>, upgrades: map<string, int>, n: nat)
    requires n <= |subs| && forall i :: 0 <= i < n ==> subs[i].id !in upgrades
    ensures BuffsOf(subs, upgrades, n) == NoBuffs()
  {
    if n > 0 {
      UnnamedAddNothing(subs, upgrades, n - 1);
      AddNothing(NoBuffs());
    }
  }

  /** A missing base, or a base without chamber upgrades, has all buffs at zero. */
  lemma MissingChamberNoBuffs(base: Option<Base>)
    requires base.None? || base.value.chamberUpgrades.None? || base.value.chamberUpgrades == Some(map[])
    ensures ChamberBuffs(base) == NoBuffs()
  {
    var u := Upgrades(base);
    assert forall k :: k !in u;
    UnnamedAddNothing(ChamberSubUpgrades, u, |ChamberSubUpgrades|);
  }

  /** Three sub-upgrades at the levels of `u`, one at a time. */
  lemma {:induction false} ThreeContributions(subs: seq<SubUpgrade>, u: map<string, int>)
    requires |subs| == 3
    ensures BuffsOf(subs, u, 3) ==
      Add(Add(Contribution(subs[0], UpgradeLevel(u, subs[0].id)),
              Contribution(subs[1], UpgradeLevel(u, subs[1].id))),
          Contribution(subs[2], UpgradeLevel(u, subs[2].id)))
  {
    var c0 := Contribution(subs[0], UpgradeLevel(u, subs[0].id));
    var c1 := Contribution(subs[1], UpgradeLevel(u, subs[1].id));
    var c2 := Contribution(subs[2], UpgradeLevel(u, subs[2].id));
    assert BuffsOf(subs, u, 0) == NoBuffs();
    AddNothing(c0);
    assert BuffsOf(subs, u, 1) == Add(NoBuffs(), c0) == c0;
    assert BuffsOf(subs, u, 2) == Add(c0, c1);
    assert BuffsOf(subs, u, 3) == Add(Add(c0, c1), c2);
  }

  /** The chamber's buffs at the levels of `u`, one sub-upgrade at a time. */
  lemma ChamberContributions(u: map<string, int>)
    ensures BuffsOf(ChamberSubUpgrades, u, 3) ==
      Add(Add(Contribution(Bed, UpgradeLevel(u, "bed")),
              Contribution(Kitchen, UpgradeLevel(u, "kitchen"))),
          Contribution(Study, UpgradeLevel(u, "study")))
  {
    var subs := ChamberSubUpgrades;
    assert subs[0] == Bed && subs[1] == Kitchen && subs[2] == Study;
    ThreeContributions(subs, u);
  }

  /**
   * The chamber's buffs are the three sub-upgrades' contributions, each the
   * buffs of its own level alone: levels replace one another, they do not add up.
   */
  lemma ChamberBuffsAreContributions(base: Option<Base>)
    ensures var u := Upgrades(base);
      ChamberBuffs(base) ==
        Add(Add(Contribution(Bed, UpgradeLevel(u, "bed")),
                Contribution(Kitchen, UpgradeLevel(u, "kitchen"))),
            Contribution(Study, UpgradeLevel(u, "study")))
  {
    ChamberContributions(Upgrades(base));
  }

  /** Whether every buff lies between zero and the given maxima. */
  predicate Within(b: Buffs, hi: Buffs)
  {
    0 <= b.atk <= hi.atk && 0 <= b.def <= hi.def && 0 <= b.hp <= hi.hp &&
    0 <= b.mana <= hi.mana && 0 <= b.healBonus <= hi.healBonus && 0 <= b.wisdom <= hi.wisdom
  }

  /** A sub-upgrade of three levels adds, at any level, at most what its levels allow. */
  lemma ContributionWithin(sub: SubUpgrade, level: int, hi: Buffs)
    requires |sub.levels| == 3 && Within(NoBuffs(), hi)
    requires Within(sub.levels[0], hi) && Within(sub.levels[1], hi) && Within(sub.levels[2], hi)
    ensures Within(Contribution(sub, level), hi)
  {
  }

  /** The bed adds at most +50 % healing. */
  lemma BedWithin(level: int)
    ensures Within(Contribution(Bed, level), Buffs(0, 0, 0, 0, 50, 0))
  {
    ContributionWithin(Bed, level, Buffs(0, 0, 0, 0, 50, 0));
  }

  /** The kitchen adds at most +10 ATK, +5 DEF and +20 HP. */
  lemma KitchenWithin(level: int)
    ensures Within(Contribution(Kitchen, level), Buffs(10, 5, 20, 0, 0, 0))
  {
    ContributionWithin(Kitchen, level, Buffs(10, 5, 20, 0, 0, 0));
  }

  /** The study adds at most +25 mana and +10 wisdom. */
  lemma StudyWithin(level: int)
    ensures Within(Contribution(Study, level), Buffs(0, 0, 0, 25, 0, 10))
  {
    ContributionWithin(Study, level, Buffs(0, 0, 0, 25, 0, 10));
  }

  /** Whatever the stored levels, every buff lies between zero and the best level's value. */
  lemma ChamberBuffsBounded(base: Option<Base>)
    ensures Within(ChamberBuffs(base), Buffs(10, 5, 20, 25, 50, 10))
  {
    ChamberBuffsAreContributions(base);
    var u := Upgrades(base);
    BedWithin(UpgradeLevel(u, "bed"));
    KitchenWithin(UpgradeLevel(u, "kitchen"));
    StudyWithin(UpgradeLevel(u, "study"));
    SumWithin(Contribution(Bed, UpgradeLevel(u, "bed")), Contribution(Kitchen, UpgradeLevel(u, "kitchen")),
              Contribution(Study, UpgradeLevel(u, "study")));
  }

  /** The three sub-upgrades' bounds add up to the chamber's. */
  lemma SumWithin(bed: Buffs, kitchen: Buffs, study: Buffs)
    requires Within(bed, Buffs(0, 0, 0, 0, 50, 0)) && Within(kitchen, Buffs(10, 5, 20, 0, 0, 0))
    requires Within(study, Buffs(0, 0, 0, 25, 0, 10))
    ensures Within(Add(Add(bed, kitchen), study), Buffs(10, 5, 20, 25, 50, 10))
  {
  }

  /** A fully upgraded kitchen alone gives +10 ATK, +5 DEF and +20 HP, not the sum of its three levels. */
  lemma GourmetKitchen(base: Option<Base>)
    requires var u := Upgrades(base);
      UpgradeLevel(u, "kitchen") == 3 && UpgradeLevel(u, "bed") <= 0 && UpgradeLevel(u, "study") <= 0
    ensures ChamberBuffs(base) == Buffs(10, 5, 20, 0, 0, 0)
  {
    var u := Upgrades(base);
    ChamberContributions(u);
    var kitchen := Contribution(Kitchen, 3);
    assert kitchen == Buffs(10, 5, 20, 0, 0, 0);
    AddNothing(kitchen);
  }

  // ---------------------------------------------------------------------------
  // getInnExpBonus(base)

  /**
   * `getInnExpBonus(base)` at clock `now`: the boost's bonus while an inn is
   * built and its boost has not run out, otherwise 0.
   */
  function InnExpBonus(base: Option<Base>, now: int): (pct: int)
    ensures base.None? || "inn" !in base.value.buildings || !base.value.buildings["inn"].built ==> pct == 0
    ensures base.Some? && base.value.innBoost.None? ==> pct == 0
    ensures base.Some? && base.value.innBoost.Some? &&
            now - base.value.innBoost.value.startTime >= base.value.innBoost.value.duration ==>
            pct == 0
    ensures pct != 0 ==>
            base.Some? && base.value.innBoost.Some? && pct == base.value.innBoost.value.expBonusPct &&
            now - base.value.innBoost.value.startTime < base.value.innBoost.value.duration
  {
    if base.None? || "inn" !in base.value.buildings || !base.value.buildings["inn"].built then 0
    else if base.value.innBoost.None? then 0
    else
      var boost := base.value.innBoost.value;
      if now - boost.startTime >= boost.duration then 0
      else boost.expBonusPct
  }

  /** With an inn built, a boost counts from its start for exactly its duration. */
  lemma InnBoostWindow(base: Base, now: int)
    requires "inn" in base.buildings && base.buildings["inn"].built && base.innBoost.Some?
    ensures var boost := base.innBoost.value;
      InnExpBonus(Some(base), now) == (if now < boost.startTime + boost.duration then boost.expBonusPct else 0)
  {
  }

  /** A fresh base has no chamber buffs and no inn bonus. */
  lemma InitialBaseGivesNothing(now: int)
    ensures ChamberBuffs(Some(InitialBase())) == NoBuffs() && InnExpBonus(Some(InitialBase()), now) == 0
  {
    MissingChamberNoBuffs(Some(InitialBase()));
  }

  // ---------------------------------------------------------------------------
  // createMaterialItem(materialId, quantity)

  /** An entry of `BUILDING_MATERIALS`; `isFuel` is None where the entry leaves it out. */
  datatype Material = Material(name: string, rarity: string, description: string, sellPrice: int, isFuel: Option<bool>)

  /** The material item put in the inventory. */
  datatype MaterialItem = MaterialItem(
    id: string, materialId: string, name: string, kind: string, level: int, rarity: string,
    description: string, sellPrice: int, stackQuantity: int, isFuel: bool)

  /**
   * `createMaterialItem(materialId, quantity)` with `id` the next `uid()`:
   * null for an unknown material, otherwise a level-1 'material' stack of
   * `quantity` (1 when left out) carrying the material's name, rarity and
   * price, marked as fuel exactly when the material says so.
   */
  function CreateMaterialItem(materials: map<string, Material>, materialId: string, quantity: Option<int>, id: string)
    : (r: Option<MaterialItem>)
    ensures r.None? <==> materialId !in materials
    ensures r.Some? ==>
      var mat := materials[materialId]; var it := r.value;
      it.id == id && it.materialId == materialId && it.kind == "material" && it.level == 1 &&
      it.name == mat.name && it.rarity == mat.rarity && it.sellPrice == mat.sellPrice &&
      it.stackQuantity == (if quantity.Some? then quantity.value else 1) &&
      (it.isFuel <==> mat.isFuel == Some(true))
  {
    if materialId !in materials then None
    else
      var mat := materials[materialId];
      Some(MaterialItem(id, materialId, mat.name, "material", 1, mat.rarity, mat.description, mat.sellPrice,
                        if quantity.Some? then quantity.value else 1,
                        mat.isFuel.Some? && mat.isFuel.value))
  }
}
