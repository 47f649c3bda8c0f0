/**
 * The customizable plan generator: a preferences record changed by validated
 * setters, a catalog filter driven by those preferences, and a slot-by-slot
 * planner that never reuses a food.
 */
module Customizer {
  import opened Wrappers
  import opened FoodData
  import Text
  import CatalogFacts

  /** A macro split as whole percentages of the day's calories. */
  datatype MacroSplit = MacroSplit(carbs: int, protein: int, fats: int)

  function SplitTotal(m: MacroSplit): int
  {
    m.carbs + m.protein + m.fats
  }

  /** The named splits a user may pick from. */
  const MacroPresets: map<string, MacroSplit> := map[
    "balanced" := MacroSplit(50, 30, 20),
    "high_protein" := MacroSplit(40, 40, 20),
    "low_carb" := MacroSplit(30, 35, 35),
    "keto" := MacroSplit(5, 30, 65),
    "high_carb" := MacroSplit(60, 25, 15)]

  /** Every preset splits the whole day: its percentages add up to 100. */
  lemma PresetsAreWhole()
    ensures forall name :: name in MacroPresets ==> SplitTotal(MacroPresets[name]) == 100
  {
  }

  /** The customizer's preferences dictionary, one field per key. */
  datatype Preferences = Preferences(
    macroPreset: string,
    customMacros: Option<MacroSplit>,
    dietaryRestrictions: seq<string>,
    foodAllergies: seq<string>,
    cuisines: seq<string>,
    excludeFoods: seq<string>,
    mealCount: int)

  const DefaultPreferences: Preferences := Preferences(
    "balanced", None, [], [], ["Indian", "Breakfast", "Protein", "Dairy", "Fruit", "Snack"], [], 4)

  /** No entry occurs twice. */
  predicate NoDuplicates(s: seq<string>)
  {
    forall i, j :: 0 <= i < j < |s| ==> s[i] != s[j]
  }

  /** `if x not in s: s.append(x)`. */
  function AddTag(s: seq<string>, x: string): seq<string>
  {
    if x in s then s else s + [x]
  }

  /** Adding is set insertion: the result holds exactly the old entries and `x`. */
  lemma AddTagMembers(s: seq<string>, x: string)
    ensures forall y :: y in AddTag(s, x) <==> y in s || y == x
  {
  }

  /** Adding twice is adding once. */
  lemma AddTagIdempotent(s: seq<string>, x: string)
    ensures AddTag(AddTag(s, x), x) == AddTag(s, x)
  {
  }

  /** Adding never creates a duplicate. */
  lemma AddTagNoDuplicates(s: seq<string>, x: string)
    requires NoDuplicates(s)
    ensures NoDuplicates(AddTag(s, x))
  {
  }

  /** `if x in s: s.remove(x)`: drops the first occurrence of `x`, if any. */
  function RemoveTag(s: seq<string>, x: string): seq<string>
  {
    if s == [] then []
    else if s[0] == x then s[1..]
    else [s[0]] + RemoveTag(s[1..], x)
  }

  /** Removing something absent changes nothing. */
  lemma {:induction false} RemoveTagAbsent(s: seq<string>, x: string)
    requires x !in s
    ensures RemoveTag(s, x) == s
  {
    if s != [] {
      RemoveTagAbsent(s[1..], x);
    }
  }

  /** Removing keeps every other entry and, in a list without duplicates, leaves `x` absent. */
  lemma {:induction false} RemoveTagMembers(s: seq<string>, x: string)
    requires NoDuplicates(s)
    ensures forall y :: y in RemoveTag(s, x) <==> y in s && y != x
    ensures NoDuplicates(RemoveTag(s, x))
  {
    if s != [] {
      assert NoDuplicates(s[1..]) by {
        forall i, j | 0 <= i < j < |s[1..]| ensures s[1..][i] != s[1..][j] {
          assert s[1..][i] == s[i + 1] && s[1..][j] == s[j + 1];
        }
      }
      RemoveTagMembers(s[1..], x);
      forall i | 0 <= i < |s[1..]| ensures s[1..][i] != s[0] {
        assert s[1..][i] == s[i + 1];
      }
      if s[0] != x {
        var rest := RemoveTag(s[1..], x);
        var r := [s[0]] + rest;
        forall i, j | 0 <= i < j < |r| ensures r[i] != r[j] {
          assert r[j] == rest[j - 1];
          if i > 0 {
            assert r[i] == rest[i - 1];
          } else {
            assert rest[j - 1] in rest;
          }
        }
      }
    }
  }

  /** Adding then removing a restriction leaves it absent, whatever was there before. */
  lemma AddThenRemove(s: seq<string>, x: string)
    requires NoDuplicates(s)
    ensures x !in RemoveTag(AddTag(s, x), x)
    ensures forall y :: y != x ==> (y in RemoveTag(AddTag(s, x), x) <==> y in s)
  {
    AddTagNoDuplicates(s, x);
    RemoveTagMembers(AddTag(s, x), x);
  }

  /** The vegetarian rule: a Protein item named for chicken, unless it is a paneer dish. */
  predicate VegetarianDrops(f: FoodItem)
  {
    && f.category == "Protein"
    && !Text.Contains(Text.Lower(f.name), "paneer")
    && Text.Contains(Text.Lower(f.name), "chicken")
  }

  /** The vegan rule: any Protein or Dairy item not named as plant-based. */
  predicate VeganDrops(f: FoodItem)
  {
    (f.category == "Protein" || f.category == "Dairy") && !Text.Contains(Text.Lower(f.name), "plant")
  }

  /**
   * The vegetarian rule as written looks at the Protein category only, so
   * "Butter Chicken (1 cup)", filed under Indian, survives it.
   */
  lemma VegetarianKeepsButterChicken()
    ensures IndianMains[2].name == "Butter Chicken (1 cup)"
    ensures Keep(IndianMains[2], DefaultPreferences.(dietaryRestrictions := ["vegetarian"]))
  {
  }

  /** Whether `_get_filtered_foods` keeps a record under preferences `p`. */
  predicate Keep(f: FoodItem, p: Preferences)
  {
    && f.category in p.cuisines
    && f.name !in p.excludeFoods
    && !("vegetarian" in p.dietaryRestrictions && VegetarianDrops(f))
    && !("vegan" in p.dietaryRestrictions && VeganDrops(f))
  }

  /** The records of `db` kept under `p`, in catalog order. */
  function FilterFoods(db: seq<FoodItem>, p: Preferences): seq<FoodItem>
  {
    if db == [] then []
    else FilterFoods(db[..|db| - 1], p) + (if Keep(db[|db| - 1], p) then [db[|db| - 1]] else [])
  }

  /** One more record of the catalog is either appended to the filtered list or skipped. */
  lemma FilterFoodsStep(db: seq<FoodItem>, i: int, p: Preferences)
    requires 0 <= i < |db|
    ensures FilterFoods(db[..i + 1], p) == FilterFoods(db[..i], p) + (if Keep(db[i], p) then [db[i]] else [])
  {
    assert db[..i + 1][..i] == db[..i];
  }

  /** The filter keeps exactly the records that pass the rules: preferred category, not excluded, not dropped by a restriction. */
  lemma {:induction false} FilterFoodsMembers(db: seq<FoodItem>, p: Preferences)
    ensures forall f :: f in FilterFoods(db, p) <==> f in db && Keep(f, p)
  {
    if db != [] {
      FilterFoodsMembers(db[..|db| - 1], p);
      assert db == db[..|db| - 1] + [db[|db| - 1]];
    }
  }

  /** Filtering never repeats a name: a list of differently named records stays so. */
  lemma {:induction false} FilterFoodsDistinct(db: seq<FoodItem>, p: Preferences)
    requires DistinctNames(db)
    ensures DistinctNames(FilterFoods(db, p))
  {
    if db != [] {
      var init := db[..|db| - 1];
      var last := db[|db| - 1];
      assert DistinctNames(init);
      FilterFoodsDistinct(init, p);
      FilterFoodsMembers(init, p);
      var kept := FilterFoods(init, p);
      if Keep(last, p) {
        forall i | 0 <= i < |kept| ensures kept[i].name != last.name {
          assert kept[i] in init;
        }
        assert FilterFoods(db, p) == kept + [last];
      }
    }
  }

  /** The filter keeps catalog order: filtering two lists laid end to end filters each in turn. */
  lemma {:induction false} FilterFoodsAppend(a: seq<FoodItem>, b: seq<FoodItem>, p: Preferences)
    ensures FilterFoods(a + b, p) == FilterFoods(a, p) + FilterFoods(b, p)
  {
    if b != [] {
      FilterFoodsAppend(a, b[..|b| - 1], p);
      assert (a + b)[..|a + b| - 1] == a + b[..|b| - 1];
    } else {
      assert a + b == a;
    }
  }

  /** Restriction tags other than "vegetarian" and "vegan" change nothing. */
  lemma {:induction false} OtherTagsIgnored(db: seq<FoodItem>, p: Preferences, tag: string)
    requires tag != "vegetarian" && tag != "vegan"
    ensures FilterFoods(db, p.(dietaryRestrictions := p.dietaryRestrictions + [tag])) == FilterFoods(db, p)
  {
    if db != [] {
      OtherTagsIgnored(db[..|db| - 1], p, tag);
    }
  }

  /** A restriction can only remove records: the filter under more tags keeps a subset. */
  lemma RestrictionsOnlyNarrow(f: FoodItem, p: Preferences, tag: string)
    ensures Keep(f, p.(dietaryRestrictions := p.dietaryRestrictions + [tag])) ==> Keep(f, p)
  {
  }

  /** The filtered records not named in `excludeList`, in order. */
  function Candidates(filtered: seq<FoodItem>, excludeList: seq<string>): seq<FoodItem>
  {
    if filtered == [] then []
    else (if filtered[0].name !in excludeList then [filtered[0]] else []) + Candidates(filtered[1..], excludeList)
  }

  lemma {:induction false} CandidatesMembers(filtered: seq<FoodItem>, excludeList: seq<string>)
    ensures forall f :: f in Candidates(filtered, excludeList) <==> f in filtered && f.name !in excludeList
  {
    if filtered != [] {
      CandidatesMembers(filtered[1..], excludeList);
      assert filtered == [filtered[0]] + filtered[1..];
    }
  }

  /**
   * `_find_best_food(calories_target, filtered_foods, exclude_list)`: among the
   * records not excluded by name, the first one nearest to the target in calories;
   * None when every record is excluded.
   */
  function FindBestFood(target: int, filtered: seq<FoodItem>, excludeList: seq<string>): (r: Option<FoodItem>)
    ensures r.None? <==> forall f :: f in filtered ==> f.name in excludeList
    ensures r.Some? ==> r.value in filtered && r.value.name !in excludeList
    ensures r.Some? ==> forall f :: f in filtered && f.name !in excludeList ==> Gap(r.value, 1, target) <= Gap(f, 1, target)
    ensures r.Some? ==>
      exists k :: NearestAt(Candidates(filtered, excludeList), k, 1, target) && Candidates(filtered, excludeList)[k] == r.value
  {
    var candidates := Candidates(filtered, excludeList);
    CandidatesMembers(filtered, excludeList);
    if candidates == [] then None
    else
      var k := Nearest(candidates, 1, target);
      assert forall f :: f in candidates ==> Gap(candidates[k], 1, target) <= Gap(f, 1, target);
      Some(candidates[k])
  }

  /** The names already placed in a plan's slots, in slot order. */
  function UsedNames(meals: seq<(string, Option<FoodItem>)>): seq<string>
  {
    if meals == [] then []
    else
      var last := meals[|meals| - 1].1;
      UsedNames(meals[..|meals| - 1]) + (if last.Some? then [last.value.name] else [])
  }

  /** Calories summed over the filled slots. */
  function TotalOf(meals: seq<(string, Option<FoodItem>)>): int
  {
    if meals == [] then 0
    else
      var last := meals[|meals| - 1].1;
      TotalOf(meals[..|meals| - 1]) + (if last.Some? then last.value.calories else 0)
  }

  /**
   * The slot loop of `generate_plan`: each slot, in distribution order, gets the
   * nearest filtered record whose name no earlier slot used, or None.
   */
  function AssignMeals(filtered: seq<FoodItem>, distribution: seq<(string, int)>): seq<(string, Option<FoodItem>)>
  {
    if distribution == [] then []
    else
      var earlier := AssignMeals(filtered, distribution[..|distribution| - 1]);
      var slot := distribution[|distribution| - 1];
      earlier + [(slot.0, FindBestFood(slot.1, filtered, UsedNames(earlier)))]
  }

  /** Earlier slots are untouched by later ones: a plan's first `i` slots are the plan for the first `i` slots. */
  lemma {:induction false} AssignMealsPrefix(filtered: seq<FoodItem>, distribution: seq<(string, int)>, i: nat)
    requires i <= |distribution|
    ensures |AssignMeals(filtered, distribution)| == |distribution|
    ensures AssignMeals(filtered, distribution)[..i] == AssignMeals(filtered, distribution[..i])
    decreases |distribution|
  {
    if distribution != [] {
      var init := distribution[..|distribution| - 1];
      AssignMealsPrefix(filtered, init, if i < |distribution| then i else |init|);
      if i < |distribution| {
        assert distribution[..i] == init[..i];
      } else {
        assert distribution[..i] == distribution;
      }
    } else {
      assert distribution[..i] == distribution;
    }
  }

  /** Slot `i` of a plan: the nearest filtered record whose name the first `i` slots did not use. */
  lemma AssignMealsSlot(filtered: seq<FoodItem>, distribution: seq<(string, int)>, i: nat)
    requires i < |distribution|
    ensures var meals := AssignMeals(filtered, distribution);
      && |meals| == |distribution|
      && meals[i] == (distribution[i].0, FindBestFood(distribution[i].1, filtered, UsedNames(meals[..i])))
  {
    var meals := AssignMeals(filtered, distribution);
    var upto := distribution[..i + 1];
    AssignMealsPrefix(filtered, distribution, i + 1);
    AssignMealsPrefix(filtered, distribution, i);
    assert upto[..i] == distribution[..i];
    assert meals[..i + 1][i] == meals[i];
  }

  /**
   * Every distribution key gets an entry, in order, and each entry holds the
   * nearest filtered record whose name no earlier slot used (None when there is none).
   */
  lemma AssignMealsSlots(filtered: seq<FoodItem>, distribution: seq<(string, int)>)
    ensures var meals := AssignMeals(filtered, distribution);
      && |meals| == |distribution|
      && forall i :: 0 <= i < |meals| ==>
           meals[i] == (distribution[i].0, FindBestFood(distribution[i].1, filtered, UsedNames(meals[..i])))
  {
    AssignMealsPrefix(filtered, distribution, 0);
    forall i | 0 <= i < |distribution| {
      AssignMealsSlot(filtered, distribution, i);
    }
  }

  /** The used names gather, in order, the name of every filled slot. */
  lemma {:induction false} UsedNamesAppend(a: seq<(string, Option<FoodItem>)>, b: seq<(string, Option<FoodItem>)>)
    ensures UsedNames(a + b) == UsedNames(a) + UsedNames(b)
  {
    if b != [] {
      UsedNamesAppend(a, b[..|b| - 1]);
      assert (a + b)[..|a + b| - 1] == a + b[..|b| - 1];
    } else {
      assert a + b == a;
    }
  }

  lemma {:induction false} UsedNamesHas(meals: seq<(string, Option<FoodItem>)>, i: nat)
    requires i < |meals| && meals[i].1.Some?
    ensures meals[i].1.value.name in UsedNames(meals)
  {
    if i < |meals| - 1 {
      UsedNamesHas(meals[..|meals| - 1], i);
    }
  }

  /** No food name fills two slots of a generated plan. */
  lemma AssignMealsNoRepeats(filtered: seq<FoodItem>, distribution: seq<(string, int)>)
    ensures var meals := AssignMeals(filtered, distribution);
      forall i, j :: 0 <= i < j < |meals| && meals[i].1.Some? && meals[j].1.Some? ==>
        meals[i].1.value.name != meals[j].1.value.name
  {
    var meals := AssignMeals(filtered, distribution);
    AssignMealsSlots(filtered, distribution);
    forall i, j | 0 <= i < j < |meals| && meals[i].1.Some? && meals[j].1.Some?
      ensures meals[i].1.value.name != meals[j].1.value.name
    {
      assert meals[..j][i] == meals[i];
      UsedNamesHas(meals[..j], i);
    }
  }

  /** Once a slot finds nothing left, every later slot is empty too. */
  lemma AssignMealsNoneStays(filtered: seq<FoodItem>, distribution: seq<(string, int)>)
    ensures var meals := AssignMeals(filtered, distribution);
      forall i, j :: 0 <= i < j < |meals| && meals[i].1.None? ==> meals[j].1.None?
  {
    var meals := AssignMeals(filtered, distribution);
    AssignMealsPrefix(filtered, distribution, 0);
    forall i, j | 0 <= i < j < |meals| && meals[i].1.None? ensures meals[j].1.None? {
      AssignMealsSlot(filtered, distribution, i);
      AssignMealsSlot(filtered, distribution, j);
      var early := UsedNames(meals[..i]);
      var late := UsedNames(meals[..j]);
      assert meals[..j] == meals[..i] + meals[i..j];
      UsedNamesAppend(meals[..i], meals[i..j]);
      assert forall f :: f in filtered ==> f.name in early;
      assert forall f :: f in filtered ==> f.name in late;
    }
  }

  /** Every filled slot holds a record of the filtered list. */
  lemma AssignMealsFromFiltered(filtered: seq<FoodItem>, distribution: seq<(string, int)>)
    ensures var meals := AssignMeals(filtered, distribution);
      forall i :: 0 <= i < |meals| && meals[i].1.Some? ==> meals[i].1.value in filtered
  {
    AssignMealsSlots(filtered, distribution);
  }

  /** The names of `s`, as a set. */
  function NameSet(s: seq<FoodItem>): set<string>
  {
    set f | f in s :: f.name
  }

  lemma {:induction false} NameSetSize(s: seq<FoodItem>)
    requires DistinctNames(s)
    ensures |NameSet(s)| == |s|
  {
    if s != [] {
      var init := s[..|s| - 1];
      var last := s[|s| - 1];
      assert DistinctNames(init);
      NameSetSize(init);
      assert s == init + [last];
      assert NameSet(s) == NameSet(init) + {last.name};
      assert last.name !in NameSet(init);
    }
  }

  lemma {:induction false} UsedNamesSize(meals: seq<(string, Option<FoodItem>)>)
    ensures |set x | x in UsedNames(meals)| <= |meals|
  {
    if meals != [] {
      var init := meals[..|meals| - 1];
      UsedNamesSize(init);
      var last := meals[|meals| - 1].1;
      var before := set x | x in UsedNames(init);
      if last.Some? {
        assert UsedNames(meals) == UsedNames(init) + [last.value.name];
        assert (set x | x in UsedNames(meals)) == before + {last.value.name};
      } else {
        assert (set x | x in UsedNames(meals)) == before;
      }
    }
  }

  lemma SubsetSize(a: set<string>, b: set<string>)
    ensures a <= b ==> |a| <= |b|
  {
    if a <= b {
      assert b == a + (b - a);
    }
  }

  /** A pick succeeds while fewer names are used than the filtered list has distinct names. */
  lemma FindBestFoodFinds(target: int, filtered: seq<FoodItem>, used: seq<string>)
    requires DistinctNames(filtered) && |set x | x in used| < |filtered|
    ensures FindBestFood(target, filtered, used).Some?
  {
    var usedSet := set x | x in used;
    NameSetSize(filtered);
    SubsetSize(NameSet(filtered), usedSet);
    var n :| n in NameSet(filtered) && n !in usedSet;
    var f :| f in filtered && f.name == n;
    assert f.name !in used;
  }

  /**
   * With at least as many differently named records as slots, no slot is left
   * empty: a slot finds nothing only once every name is used, and the earlier
   * slots cannot have used them all.
   */
  lemma AssignMealsFillsAll(filtered: seq<FoodItem>, distribution: seq<(string, int)>)
    requires DistinctNames(filtered) && |filtered| >= |distribution|
    ensures var meals := AssignMeals(filtered, distribution);
      forall i :: 0 <= i < |meals| ==> meals[i].1.Some?
  {
    var meals := AssignMeals(filtered, distribution);
    AssignMealsPrefix(filtered, distribution, 0);
    forall i | 0 <= i < |meals| ensures meals[i].1.Some? {
      AssignMealsSlot(filtered, distribution, i);
      UsedNamesSize(meals[..i]);
      FindBestFoodFinds(distribution[i].1, filtered, UsedNames(meals[..i]));
    }
  }

  /**
   * On the catalog, whose names are all different, every slot of a plan is filled
   * as soon as the preferences keep at least as many records as there are slots.
   */
  lemma CatalogSlotsFilled(p: Preferences, distribution: seq<(string, int)>)
    requires |FilterFoods(Catalog, p)| >= |distribution|
    ensures var meals := AssignMeals(FilterFoods(Catalog, p), distribution);
      forall i :: 0 <= i < |meals| ==> meals[i].1.Some?
  {
    CatalogFacts.CatalogNamesDistinct();
    FilterFoodsDistinct(Catalog, p);
    AssignMealsFillsAll(FilterFoods(Catalog, p), distribution);
  }

  /** Grams of a macro, as `int()` truncates toward zero. */
  function TruncDiv(a: int, b: int): int
    requires b > 0
  {
    if a >= 0 then a / b else -((-a) / b)
  }

  /** Daily macro targets in grams: four calories per gram of carbohydrate or protein, nine per gram of fat. */
  datatype MacroTargets = MacroTargets(carbs: int, protein: int, fats: int)

  function TargetsFor(dailyCalories: int, m: MacroSplit): MacroTargets
  {
    MacroTargets(TruncDiv(dailyCalories * m.carbs, 400), TruncDiv(dailyCalories * m.protein, 400),
                 TruncDiv(dailyCalories * m.fats, 900))
  }

  /** For a non-negative day and split, each target is the whole number of grams whose calories fit the macro's share. */
  lemma TargetsFit(dailyCalories: int, m: MacroSplit)
    requires dailyCalories >= 0 && m.carbs >= 0 && m.protein >= 0 && m.fats >= 0
    ensures var t := TargetsFor(dailyCalories, m);
      && 400 * t.carbs <= dailyCalories * m.carbs < 400 * (t.carbs + 1)
      && 400 * t.protein <= dailyCalories * m.protein < 400 * (t.protein + 1)
      && 900 * t.fats <= dailyCalories * m.fats < 900 * (t.fats + 1)
  {
  }

  /** A generated plan. */
  datatype Plan = Plan(
    meals: seq<(string, Option<FoodItem>)>,
    totalCalories: int,
    macros: MacroTargets,
    split: MacroSplit)

  /** `generate_plan` raises KeyError when no custom split is set and the preset name is unknown. */
  datatype PlanError = UnknownPreset(name: string)

  /** The calorie targets used when no distribution is given: 25%, 35%, 35% and 5% of the day. */
  function DefaultDistribution(dailyCalories: int): seq<(string, int)>
  {
    [("breakfast", TruncDiv(dailyCalories * 25, 100)), ("lunch", TruncDiv(dailyCalories * 35, 100)),
     ("dinner", TruncDiv(dailyCalories * 35, 100)), ("snacks", TruncDiv(dailyCalories * 5, 100))]
  }

  /** The slot names of a distribution are distinct, as the keys of a dictionary are. */
  predicate DistinctSlots(distribution: seq<(string, int)>)
  {
    forall i, j :: 0 <= i < j < |distribution| ==> distribution[i].0 != distribution[j].0
  }

  function SlotsFor(dailyCalories: int, distribution: Option<seq<(string, int)>>): seq<(string, int)>
  {
    if distribution.Some? then distribution.value else DefaultDistribution(dailyCalories)
  }

  /** A value stored under one of the preferences dictionary's keys. */
  datatype PrefValue = Name(s: string) | Macros(m: Option<MacroSplit>) | Tags(items: seq<string>) | Count(n: int)

  /** The keys the preferences dictionary is created with; updates never add others. */
  const PrefKeys: seq<string> := [
    "macro_preset", "custom_macros", "dietary_restrictions", "food_allergies", "cuisines", "exclude_foods", "meal_count"]

  /** `user_preferences.get(key)`: the dictionary view of the record. */
  function Get(p: Preferences, key: string): Option<PrefValue>
  {
    if key == "macro_preset" then Some(Name(p.macroPreset))
    else if key == "custom_macros" then Some(Macros(p.customMacros))
    else if key == "dietary_restrictions" then Some(Tags(p.dietaryRestrictions))
    else if key == "food_allergies" then Some(Tags(p.foodAllergies))
    else if key == "cuisines" then Some(Tags(p.cuisines))
    else if key == "exclude_foods" then Some(Tags(p.excludeFoods))
    else if key == "meal_count" then Some(Count(p.mealCount))
    else None
  }

  /** Whether `v` has the shape of the value stored under `key`. */
  predicate Fits(key: string, v: PrefValue)
  {
    match v
    case Name(_) => key == "macro_preset"
    case Macros(_) => key == "custom_macros"
    case Tags(_) =>
      key == "dietary_restrictions" || key == "food_allergies" || key == "cuisines" || key == "exclude_foods"
    case Count(_) => key == "meal_count"
  }

  /** `user_preferences[key] = value` for a key already present and a value of its shape; anything else is ignored. */
  function Set(p: Preferences, key: string, v: PrefValue): Preferences
  {
    match v
    case Name(s) => if key == "macro_preset" then p.(macroPreset := s) else p
    case Macros(m) => if key == "custom_macros" then p.(customMacros := m) else p
    case Tags(items) =>
      if key == "dietary_restrictions" then p.(dietaryRestrictions := items)
      else if key == "food_allergies" then p.(foodAllergies := items)
      else if key == "cuisines" then p.(cuisines := items)
      else if key == "exclude_foods" then p.(excludeFoods := items)
      else p
    case Count(n) => if key == "meal_count" then p.(mealCount := n) else p
  }

  /** The dictionary has exactly the fixed keys. */
  lemma GetKeys(p: Preferences, key: string)
    ensures Get(p, key).Some? <==> key in PrefKeys
  {
  }

  /** A key that is not in the dictionary is ignored. */
  lemma SetUnknownIgnored(p: Preferences, key: string, v: PrefValue)
    requires key !in PrefKeys
    ensures Set(p, key, v) == p
  {
  }

  /** An update stores its value under its key ... */
  lemma SetStores(p: Preferences, key: string, v: PrefValue)
    requires Fits(key, v)
    ensures Get(Set(p, key, v), key) == Some(v)
  {
  }

  /** ... and leaves every other key as it was. */
  lemma SetLeavesOthers(p: Preferences, key: string, v: PrefValue, other: string)
    requires other != key
    ensures Get(Set(p, key, v), other) == Get(p, other)
  {
  }

  /** The updates applied in order. */
  function ApplyUpdates(p: Preferences, updates: seq<(string, PrefValue)>): Preferences
  {
    if updates == [] then p
    else
      var last := updates[|updates| - 1];
      Set(ApplyUpdates(p, updates[..|updates| - 1]), last.0, last.1)
  }

  /** A key no update names keeps its value. */
  lemma {:induction false} ApplyUpdatesLeavesOthers(p: Preferences, updates: seq<(string, PrefValue)>, other: string)
    requires forall i :: 0 <= i < |updates| ==> updates[i].0 != other
    ensures Get(ApplyUpdates(p, updates), other) == Get(p, other)
  {
    if updates != [] {
      var last := updates[|updates| - 1];
      ApplyUpdatesLeavesOthers(p, updates[..|updates| - 1], other);
      SetLeavesOthers(ApplyUpdates(p, updates[..|updates| - 1]), last.0, last.1, other);
    }
  }

  /**
   * The slot loop of `generate_plan`: each slot takes the best record not yet
   * used, its name joins the used list and its calories the running total.
   */
  method FillSlots(filtered: seq<FoodItem>, slots: seq<(string, int)>)
    returns (meals: seq<(string, Option<FoodItem>)>, total: int)
    ensures meals == AssignMeals(filtered, slots)
    ensures total == TotalOf(meals)
  {
    meals := [];
    total := 0;
    var used: seq<string> := [];
    for i := 0 to |slots|
      invariant meals == AssignMeals(filtered, slots[..i])
      invariant used == UsedNames(meals)
      invariant total == TotalOf(meals)
    {
      var food := FindBestFood(slots[i].1, filtered, used);
      assert slots[..i + 1][..i] == slots[..i];
      var before := meals;
      meals := meals + [(slots[i].0, food)];
      assert meals[..|meals| - 1] == before;
      if food.Some? {
        total := total + food.value.calories;
        used := used + [food.value.name];
      }
    }
    assert slots[..|slots|] == slots;
  }

  /** The customizer: one preferences dictionary, changed in place by its setters. */
  class DietPlanCustomizer {
    var prefs: Preferences

    constructor()
      ensures prefs == DefaultPreferences
    {
      prefs := DefaultPreferences;
    }

    /** `set_macro_preset`: an unknown name is refused and nothing changes; a known one also clears any custom split. */
    method SetMacroPreset(presetName: string) returns (ok: bool)
      modifies this
      ensures ok <==> presetName in MacroPresets
      ensures ok ==> prefs == old(prefs).(macroPreset := presetName, customMacros := None)
      ensures !ok ==> prefs == old(prefs)
    {
      if presetName in MacroPresets {
        prefs := prefs.(macroPreset := presetName, customMacros := None);
        return true;
      }
      return false;
    }

    /** `set_custom_macros`: only a split adding up to 100 is stored; otherwise nothing changes. */
    method SetCustomMacros(carbsPct: int, proteinPct: int, fatsPct: int) returns (ok: bool)
      modifies this
      ensures ok <==> carbsPct + proteinPct + fatsPct == 100
      ensures ok ==> prefs == old(prefs).(customMacros := Some(MacroSplit(carbsPct, proteinPct, fatsPct)))
      ensures !ok ==> prefs == old(prefs)
    {
      var total := carbsPct + proteinPct + fatsPct;
      if total != 100 {
        return false;
      }
      prefs := prefs.(customMacros := Some(MacroSplit(carbsPct, proteinPct, fatsPct)));
      return true;
    }

    /** `add_dietary_restriction`: appends the tag unless present; always succeeds. */
    method AddDietaryRestriction(restriction: string) returns (ok: bool)
      modifies this
      ensures ok
      ensures prefs == old(prefs).(dietaryRestrictions := AddTag(old(prefs).dietaryRestrictions, restriction))
      ensures NoDuplicates(old(prefs).dietaryRestrictions) ==> NoDuplicates(prefs.dietaryRestrictions)
    {
      if restriction !in prefs.dietaryRestrictions {
        prefs := prefs.(dietaryRestrictions := prefs.dietaryRestrictions + [restriction]);
      }
      if NoDuplicates(old(prefs).dietaryRestrictions) {
        AddTagNoDuplicates(old(prefs).dietaryRestrictions, restriction);
      }
      return true;
    }

    /** `remove_dietary_restriction`: removes the tag's first occurrence if present; always succeeds. */
    method RemoveDietaryRestriction(restriction: string) returns (ok: bool)
      modifies this
      ensures ok
      ensures prefs == old(prefs).(dietaryRestrictions := RemoveTag(old(prefs).dietaryRestrictions, restriction))
      ensures restriction !in old(prefs).dietaryRestrictions ==> prefs == old(prefs)
    {
      if restriction in prefs.dietaryRestrictions {
        prefs := prefs.(dietaryRestrictions := RemoveTag(prefs.dietaryRestrictions, restriction));
      } else {
        RemoveTagAbsent(prefs.dietaryRestrictions, restriction);
      }
      return true;
    }

    /** `add_allergy`: appends the allergen unless present; always succeeds. */
    method AddAllergy(allergen: string) returns (ok: bool)
      modifies this
      ensures ok
      ensures prefs == old(prefs).(foodAllergies := AddTag(old(prefs).foodAllergies, allergen))
      ensures NoDuplicates(old(prefs).foodAllergies) ==> NoDuplicates(prefs.foodAllergies)
    {
      if allergen !in prefs.foodAllergies {
        prefs := prefs.(foodAllergies := prefs.foodAllergies + [allergen]);
      }
      if NoDuplicates(old(prefs).foodAllergies) {
        AddTagNoDuplicates(old(prefs).foodAllergies, allergen);
      }
      return true;
    }

    /** `set_preferred_cuisines`: replaces the category list; always succeeds. */
    method SetPreferredCuisines(cuisines: seq<string>) returns (ok: bool)
      modifies this
      ensures ok
      ensures prefs == old(prefs).(cuisines := cuisines)
    {
      prefs := prefs.(cuisines := cuisines);
      return true;
    }

    /** `exclude_food`: appends the name unless present; always succeeds. */
    method ExcludeFood(foodName: string) returns (ok: bool)
      modifies this
      ensures ok
      ensures prefs == old(prefs).(excludeFoods := AddTag(old(prefs).excludeFoods, foodName))
      ensures NoDuplicates(old(prefs).excludeFoods) ==> NoDuplicates(prefs.excludeFoods)
    {
      if foodName !in prefs.excludeFoods {
        prefs := prefs.(excludeFoods := prefs.excludeFoods + [foodName]);
      }
      if NoDuplicates(old(prefs).excludeFoods) {
        AddTagNoDuplicates(old(prefs).excludeFoods, foodName);
      }
      return true;
    }

    /** `_get_filtered_foods`: one pass over the catalog, skipping what the preferences rule out. */
    method GetFilteredFoods(db: seq<FoodItem>) returns (filtered: seq<FoodItem>)
      ensures filtered == FilterFoods(db, prefs)
    {
      filtered := [];
      for i := 0 to |db|
        invariant filtered == FilterFoods(db[..i], prefs)
      {
        var food := db[i];
        FilterFoodsStep(db, i, prefs);
        if food.category !in prefs.cuisines {
          continue;
        }
        if food.name in prefs.excludeFoods {
          continue;
        }
        if |prefs.dietaryRestrictions| > 0 {
          var lowered := Text.Lower(food.name);
          if "vegetarian" in prefs.dietaryRestrictions {
            if food.category == "Protein" && !Text.Contains(lowered, "paneer") && Text.Contains(lowered, "chicken") {
              continue;
            }
          }
          if "vegan" in prefs.dietaryRestrictions {
            if (food.category == "Protein" || food.category == "Dairy") && !Text.Contains(lowered, "plant") {
              continue;
            }
          }
        }
        filtered := filtered + [food];
      }
      assert db[..|db|] == db;
    }

    /**
     * `generate_plan(daily_calories, meal_distribution)`: picks the macro split
     * (the custom one when set, else the named preset), derives gram targets,
     * filters the catalog and fills the slots in order without reusing a food.
     */
    method GeneratePlan(db: seq<FoodItem>, dailyCalories: int, distribution: Option<seq<(string, int)>>)
      returns (r: Result<Plan, PlanError>)
      requires distribution.Some? ==> DistinctSlots(distribution.value)
      ensures r.Failure? <==> prefs.customMacros.None? && prefs.macroPreset !in MacroPresets
      ensures r.Failure? ==> r.error == UnknownPreset(prefs.macroPreset)
      ensures r.Success? ==> r.value.split == (if prefs.customMacros.Some? then prefs.customMacros.value else MacroPresets[prefs.macroPreset])
      ensures r.Success? ==> r.value.macros == TargetsFor(dailyCalories, r.value.split)
      ensures r.Success? ==> r.value.meals == AssignMeals(FilterFoods(db, prefs), SlotsFor(dailyCalories, distribution))
      ensures r.Success? ==> r.value.totalCalories == TotalOf(r.value.meals)
    {
      var split: MacroSplit;
      if prefs.customMacros.Some? {
        split := prefs.customMacros.value;
      } else if prefs.macroPreset in MacroPresets {
        split := MacroPresets[prefs.macroPreset];
      } else {
        return Failure(UnknownPreset(prefs.macroPreset));
      }
      var targets := TargetsFor(dailyCalories, split);
      var filtered := GetFilteredFoods(db);
      var meals, total := FillSlots(filtered, SlotsFor(dailyCalories, distribution));
      return Success(Plan(meals, total, targets, split));
    }

    /** `update_preferences`: applies each update in order, overwriting only keys the dictionary already has. */
    method UpdatePreferences(updates: seq<(string, PrefValue)>) returns (ok: bool)
      modifies this
      ensures ok
      ensures prefs == ApplyUpdates(old(prefs), updates)
    {
      for i := 0 to |updates|
        invariant prefs == ApplyUpdates(old(prefs), updates[..i])
      {
        assert updates[..i + 1][..i] == updates[..i];
        var (key, value) := updates[i];
        if key in PrefKeys {
          prefs := Set(prefs, key, value);
        } else {
          SetUnknownIgnored(prefs, key, value);
        }
      }
      assert updates[..|updates|] == updates;
      return true;
    }
  }
}
