/**
 * The skill trees: the id-to-skill lookup built when the module loads, the
 * lookup itself, and the lists of a player's unlocked active and passive
 * skills. The trees and the class table are parameters (the class table
 * lives in a data file that is not part of this model).
 */
module SkillTrees {
  import opened Common

  datatype SkillKind = Active | Passive

  /** A tier choice; an active one has a mana cost and an effect name. */
  datatype TreeSkill = TreeSkill(id: string, name: string, kind: SkillKind, manaCost: int, effect: string)

  datatype Tier = Tier(level: int, choices: seq<TreeSkill>)

  /** One class's tree: its tiers in order. `SKILL_TREES` is a sequence of them, in key order. */
  datatype ClassTree = ClassTree(tiers: seq<Tier>)

  /** The class-table fields the skill lists copy. */
  datatype ClassInfo = ClassInfo(skillName: string, skillManaCost: int, skillEffect: string, passive: string)

  /** An entry of a player's skill list: the class skill or passive, or a tree choice. */
  datatype SkillEntry = ClassSkill(name: string, manaCost: int, effect: string) | ClassPassive(name: string) | Tree(skill: TreeSkill)

  // ---------------------------------------------------------------------------
  // The lookup map `_allTreeSkills`

  /** Every choice of a list of tiers, tier by tier. */
  function TierChoices(tiers: seq<Tier>): seq<TreeSkill>
  {
    if tiers == [] then [] else TierChoices(tiers[..|tiers| - 1]) + tiers[|tiers| - 1].choices
  }

  /** Every choice of every class, class by class. */
  function TreeChoices(trees: seq<ClassTree>): seq<TreeSkill>
  {
    if trees == [] then [] else TreeChoices(trees[..|trees| - 1]) + TierChoices(trees[|trees| - 1].tiers)
  }

  /** `m[choice.id] = choice` for each choice in turn: a later choice with the same id wins. */
  function Insert(m: map<string, TreeSkill>, cs: seq<TreeSkill>): map<string, TreeSkill>
  {
    if cs == [] then m else Insert(m, cs[..|cs| - 1])[cs[|cs| - 1].id := cs[|cs| - 1]]
  }

  /**
   * The lookup holds exactly the ids of the choices, each mapped to the
   * last choice with that id, so to a choice carrying that id.
   */
  lemma {:induction false} InsertMeaning(cs: seq<TreeSkill>, id: string)
    ensures id in Insert(map[], cs) <==> exists k :: 0 <= k < |cs| && cs[k].id == id
    ensures id in Insert(map[], cs) ==>
      exists k :: 0 <= k < |cs| && Insert(map[], cs)[id] == cs[k] && cs[k].id == id &&
        forall j :: k < j < |cs| ==> cs[j].id != id
  {
    if cs != [] {
      var n := |cs| - 1;
      InsertMeaning(cs[..n], id);
      InsertSnoc(cs[..n], cs[n], id);
      assert cs[..n] + [cs[n]] == cs;
    }
  }

  /** One more choice: the meaning of the lookup carries over from `init` to `init + [c]`. */
  lemma InsertSnoc(init: seq<TreeSkill>, c: TreeSkill, id: string)
    requires id in Insert(map[], init) <==> exists k :: 0 <= k < |init| && init[k].id == id
    requires id in Insert(map[], init) ==>
      exists k :: 0 <= k < |init| && Insert(map[], init)[id] == init[k] && init[k].id == id &&
        forall j :: k < j < |init| ==> init[j].id != id
    ensures var cs := init + [c];
      (id in Insert(map[], cs) <==> exists k :: 0 <= k < |cs| && cs[k].id == id) &&
      (id in Insert(map[], cs) ==>
        exists k :: 0 <= k < |cs| && Insert(map[], cs)[id] == cs[k] && cs[k].id == id &&
          forall j :: k < j < |cs| ==> cs[j].id != id)
  {
    var cs := init + [c];
    var m := Insert(map[], init);
    assert cs[..|cs| - 1] == init && cs[|cs| - 1] == c;
    assert Insert(map[], cs) == m[c.id := c];
    if c.id == id {
      assert cs[|init|] == c;
    } else if id in m {
      var k :| 0 <= k < |init| && m[id] == init[k] && init[k].id == id &&
        forall j :: k < j < |init| ==> init[j].id != id;
      assert cs[k] == init[k];
      forall j | k < j < |cs| ensures cs[j].id != id {
        if j < |init| { assert cs[j] == init[j]; }
      }
    } else {
      forall k | 0 <= k < |cs| ensures cs[k].id != id {
        if k < |init| { assert cs[k] == init[k]; }
      }
    }
  }

  lemma TierChoicesSnoc(tiers: seq<Tier>, j: nat)
    requires j < |tiers|
    ensures TierChoices(tiers[..j + 1]) == TierChoices(tiers[..j]) + tiers[j].choices
  {
    assert tiers[..j + 1][..j] == tiers[..j];
  }

  lemma TreeChoicesSnoc(trees: seq<ClassTree>, i: nat)
    requires i < |trees|
    ensures TreeChoices(trees[..i + 1]) == TreeChoices(trees[..i]) + TierChoices(trees[i].tiers)
  {
    assert trees[..i + 1][..i] == trees[..i];
  }

  /** Inserting two runs of choices is inserting their concatenation. */
  lemma {:induction false} InsertAppend(m: map<string, TreeSkill>, a: seq<TreeSkill>, b: seq<TreeSkill>)
    ensures Insert(m, a + b) == Insert(Insert(m, a), b)
  {
    if b == [] {
      assert a + b == a;
    } else {
      var n := |b| - 1;
      assert (a + b)[..|a + b| - 1] == a + b[..n];
      InsertAppend(m, a, b[..n]);
    }
  }

  /** The innermost loop: `for (const choice of tier.choices) _allTreeSkills[choice.id] = choice`. */
  method AddChoices(lookup: map<string, TreeSkill>, choices: seq<TreeSkill>) returns (out: map<string, TreeSkill>)
    ensures out == Insert(lookup, choices)
  {
    out := lookup;
    for k := 0 to |choices|
      invariant out == Insert(lookup, choices[..k])
    {
      assert choices[..k + 1][..k] == choices[..k];
      out := out[choices[k].id := choices[k]];
    }
    assert choices[..|choices|] == choices;
  }

  /** The middle loop: `for (const tier of cls.tiers) …` */
  method AddTiers(lookup: map<string, TreeSkill>, tiers: seq<Tier>) returns (out: map<string, TreeSkill>)
    ensures out == Insert(lookup, TierChoices(tiers))
  {
    out := lookup;
    for j := 0 to |tiers|
      invariant out == Insert(lookup, TierChoices(tiers[..j]))
    {
      out := AddChoices(out, tiers[j].choices);
      InsertAppend(lookup, TierChoices(tiers[..j]), tiers[j].choices);
      TierChoicesSnoc(tiers, j);
    }
    assert tiers[..|tiers|] == tiers;
  }

  /**
   * The lookup built at module load: `for (const cls of
   * Object.values(SKILL_TREES))` over every tier of every class.
   */
  method BuildLookup(trees: seq<ClassTree>) returns (lookup: map<string, TreeSkill>)
    ensures lookup == Insert(map[], TreeChoices(trees))
  {
    lookup := map[];
    for i := 0 to |trees|
      invariant lookup == Insert(map[], TreeChoices(trees[..i]))
    {
      lookup := AddTiers(lookup, trees[i].tiers);
      InsertAppend(map[], TreeChoices(trees[..i]), TierChoices(trees[i].tiers));
      TreeChoicesSnoc(trees, i);
    }
    assert trees[..|trees|] == trees;
  }

  /** `getTreeSkill(id)`: null for an unknown id. */
  function GetTreeSkill(lookup: map<string, TreeSkill>, id: string): (r: Option<TreeSkill>)
    ensures r.None? <==> id !in lookup
    ensures r.Some? ==> r.value == lookup[id]
  {
    if id in lookup then Some(lookup[id]) else None
  }

  /**
   * Looked up in the map the module builds, an id is found exactly when
   * some tier choice has it, and what is found is a choice with that id.
   */
  lemma TreeSkillFound(trees: seq<ClassTree>, id: string)
    ensures var r := GetTreeSkill(Insert(map[], TreeChoices(trees)), id); var cs := TreeChoices(trees);
      (r.Some? <==> exists k :: 0 <= k < |cs| && cs[k].id == id) &&
      (r.Some? ==> r.value.id == id && r.value in cs)
  {
    InsertMeaning(TreeChoices(trees), id);
  }

  // ---------------------------------------------------------------------------
  // getPlayerActiveSkills, getPlayerPassiveSkills

  /** The tree skills of one kind unlocked by `tree`, in tree order, unknown ids skipped. */
  function Unlocked(lookup: map<string, TreeSkill>, tree: seq<string>, kind: SkillKind): (r: seq<TreeSkill>)
    ensures |r| <= |tree|
  {
    if tree == [] then []
    else
      var id := tree[|tree| - 1];
      Unlocked(lookup, tree[..|tree| - 1], kind) + (if id in lookup && lookup[id].kind == kind then [lookup[id]] else [])
  }

  /** A skill is listed exactly when one of the tree's ids looks it up and it has the kind asked for. */
  lemma {:induction false} UnlockedMeaning(lookup: map<string, TreeSkill>, tree: seq<string>, kind: SkillKind, s: TreeSkill)
    ensures s in Unlocked(lookup, tree, kind) <==>
      s.kind == kind && exists k :: 0 <= k < |tree| && tree[k] in lookup && lookup[tree[k]] == s
  {
    if tree != [] {
      var n := |tree| - 1;
      var id := tree[n];
      UnlockedMeaning(lookup, tree[..n], kind, s);
      assert s in Unlocked(lookup, tree, kind) <==>
        s in Unlocked(lookup, tree[..n], kind) || (id in lookup && lookup[id].kind == kind && lookup[id] == s);
      FoundSnoc(lookup, tree[..n], id, s);
      assert tree[..n] + [id] == tree;
    }
  }

  /** An id of `init + [id]` that finds s is one of init's ids or id itself. */
  lemma FoundSnoc(lookup: map<string, TreeSkill>, init: seq<string>, id: string, s: TreeSkill)
    ensures var tree := init + [id];
      (exists k :: 0 <= k < |tree| && tree[k] in lookup && lookup[tree[k]] == s) <==>
      (exists k :: 0 <= k < |init| && init[k] in lookup && lookup[init[k]] == s) ||
      (id in lookup && lookup[id] == s)
  {
    var tree := init + [id];
    if exists k :: 0 <= k < |tree| && tree[k] in lookup && lookup[tree[k]] == s {
      var k :| 0 <= k < |tree| && tree[k] in lookup && lookup[tree[k]] == s;
      if k < |init| {
        assert init[k] == tree[k];
      }
    }
    if exists k :: 0 <= k < |init| && init[k] in lookup && lookup[init[k]] == s {
      var k :| 0 <= k < |init| && init[k] in lookup && lookup[init[k]] == s;
      assert tree[k] == init[k];
    }
    if id in lookup && lookup[id] == s {
      assert tree[|init|] == id;
    }
  }

  /** Filtering keeps the tree's order: the skills of a longer tree extend those of its prefix. */
  lemma {:induction false} UnlockedAppend(lookup: map<string, TreeSkill>, a: seq<string>, b: seq<string>, kind: SkillKind)
    ensures Unlocked(lookup, a + b, kind) == Unlocked(lookup, a, kind) + Unlocked(lookup, b, kind)
  {
    if b == [] {
      assert a + b == a;
    } else {
      var n := |b| - 1;
      assert (a + b)[..|a + b| - 1] == a + b[..n];
      UnlockedAppend(lookup, a, b[..n], kind);
    }
  }

  /** The class skill entry of a known class, or nothing without a class or for an unknown one. */
  function ClassOf(classes: map<string, ClassInfo>, characterClass: Option<string>): (r: Option<ClassInfo>)
    ensures r.Some? <==> characterClass.Some? && characterClass.value in classes
  {
    if characterClass.Some? && characterClass.value in classes then Some(classes[characterClass.value]) else None
  }

  /**
   * `getPlayerActiveSkills(player)`: nothing without a (known) class;
   * otherwise the class skill first, then the active tree skills in the
   * order the player picked them.
   */
  method PlayerActiveSkills(classes: map<string, ClassInfo>, lookup: map<string, TreeSkill>,
                            characterClass: Option<string>, tree: seq<string>) returns (skills: seq<SkillEntry>)
    ensures ClassOf(classes, characterClass).None? ==> skills == []
    ensures ClassOf(classes, characterClass).Some? ==>
      var cls := ClassOf(classes, characterClass).value;
      |skills| == 1 + |Unlocked(lookup, tree, Active)| &&
      skills[0] == ClassSkill(cls.skillName, cls.skillManaCost, cls.skillEffect) &&
      forall k :: 1 <= k < |skills| ==> skills[k] == Tree(Unlocked(lookup, tree, Active)[k - 1])
  {
    var cls := ClassOf(classes, characterClass);
    if cls.None? {
      return [];
    }
    skills := [ClassSkill(cls.value.skillName, cls.value.skillManaCost, cls.value.skillEffect)];
    for i := 0 to |tree|
      invariant |skills| == 1 + |Unlocked(lookup, tree[..i], Active)|
      invariant skills[0] == ClassSkill(cls.value.skillName, cls.value.skillManaCost, cls.value.skillEffect)
      invariant forall k :: 1 <= k < |skills| ==> skills[k] == Tree(Unlocked(lookup, tree[..i], Active)[k - 1])
    {
      assert tree[..i + 1][..i] == tree[..i];
      var id := tree[i];
      if id in lookup && lookup[id].kind == Active {
        skills := skills + [Tree(lookup[id])];
      }
    }
    assert tree[..|tree|] == tree;
  }

  /**
   * `getPlayerPassiveSkills(player)`: nothing without a (known) class;
   * otherwise the class passive first, then the passive tree skills in the
   * order the player picked them.
   */
  method PlayerPassiveSkills(classes: map<string, ClassInfo>, lookup: map<string, TreeSkill>,
                             characterClass: Option<string>, tree: seq<string>) returns (passives: seq<SkillEntry>)
    ensures ClassOf(classes, characterClass).None? ==> passives == []
    ensures ClassOf(classes, characterClass).Some? ==>
      |passives| == 1 + |Unlocked(lookup, tree, Passive)| &&
      passives[0] == ClassPassive(ClassOf(classes, characterClass).value.passive) &&
      forall k :: 1 <= k < |passives| ==> passives[k] == Tree(Unlocked(lookup, tree, Passive)[k - 1])
  {
    var cls := ClassOf(classes, characterClass);
    if cls.None? {
      return [];
    }
    passives := [ClassPassive(cls.value.passive)];
    for i := 0 to |tree|
      invariant |passives| == 1 + |Unlocked(lookup, tree[..i], Passive)|
      invariant passives[0] == ClassPassive(cls.value.passive)
      invariant forall k :: 1 <= k < |passives| ==> passives[k] == Tree(Unlocked(lookup, tree[..i], Passive)[k - 1])
    {
      assert tree[..i + 1][..i] == tree[..i];
      var id := tree[i];
      if id in lookup && lookup[id].kind == Passive {
        passives := passives + [Tree(lookup[id])];
      }
    }
    assert tree[..|tree|] == tree;
  }
}
