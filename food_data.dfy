/**
 * The static food catalog and the two helpers that read it directly:
 * the four-slot nearest-calorie day plan and the healthy-item pick.
 */
module FoodData {
  import opened Wrappers

  /**
   * One catalog record. Calories are whole numbers; the protein, carbohydrate and
   * fat grams carry at most one decimal place, so they are kept as integer tenths
   * of a gram (12.5 g is 125, the protein threshold of 20 g is 200).
   */
  datatype FoodItem = Food(
    name: string,
    calories: int,
    protein: int,
    carbs: int,
    fats: int,
    category: string,
    healthy: bool)

  /** Indian curries and main dishes. */
  const IndianMains: seq<FoodItem> := [
    Food("Paneer Butter Masala (1 cup)", 350, 120, 150, 250, "Indian", false),
    Food("Dal Tadka (1 cup)", 180, 120, 250, 40, "Indian", true),
    Food("Butter Chicken (1 cup)", 300, 250, 80, 180, "Indian", false),
    Food("Chana Masala (1 cup)", 220, 100, 280, 70, "Indian", true),
    Food("Rajma (1 cup)", 200, 120, 320, 20, "Indian", true),
    Food("Chole Bhature", 400, 140, 600, 120, "Indian", false)
  ]

  /** Breads and grains. */
  const BreadsAndGrains: seq<FoodItem> := [
    Food("Roti (1 piece)", 100, 30, 180, 10, "Indian", true),
    Food("Rice (1 cup cooked)", 200, 40, 440, 5, "Indian", true),
    Food("Biryani (1 cup)", 350, 80, 480, 140, "Indian", false),
    Food("Brown Rice (1 cup)", 215, 50, 450, 18, "Breakfast", true),
    Food("Whole Wheat Bread (2 slices)", 160, 80, 280, 20, "Breakfast", true)
  ]

  /** Proteins. */
  const Proteins: seq<FoodItem> := [
    Food("Chicken Tikka (6 pcs)", 250, 300, 50, 100, "Protein", true),
    Food("Grilled Chicken Breast", 165, 310, 0, 36, "Protein", true),
    Food("Tandoori Chicken (1/2)", 220, 350, 20, 70, "Protein", true),
    Food("Fish Curry (1 cup)", 180, 250, 40, 80, "Protein", true),
    Food("Grilled Fish (150g)", 200, 300, 0, 80, "Protein", true),
    Food("Mutton Curry (1 cup)", 280, 280, 60, 150, "Protein", false),
    Food("Tofu (100g)", 76, 80, 20, 50, "Protein", true)
  ]

  /** Eggs. */
  const Eggs: seq<FoodItem> := [
    Food("Eggs (2 boiled)", 155, 130, 11, 110, "Protein", true),
    Food("Egg Omelet (3 eggs)", 280, 180, 20, 220, "Breakfast", true),
    Food("Scrambled Eggs (2 eggs)", 180, 120, 10, 140, "Breakfast", true)
  ]

  /** South Indian dishes. */
  const SouthIndian: seq<FoodItem> := [
    Food("Dosa (Plain)", 133, 30, 230, 30, "South Indian", true),
    Food("Masala Dosa", 200, 50, 320, 60, "South Indian", true),
    Food("Idli (2 pcs)", 120, 40, 240, 5, "South Indian", true),
    Food("Uttapam (1 pc)", 150, 50, 280, 30, "South Indian", true),
    Food("Sambar (1 cup)", 80, 40, 120, 20, "South Indian", true)
  ]

  /** Breakfast items. */
  const BreakfastItems: seq<FoodItem> := [
    Food("Oats (1 cup cooked)", 150, 60, 270, 30, "Breakfast", true),
    Food("Cornflakes with Milk", 180, 60, 320, 30, "Breakfast", true),
    Food("Paratha (1 piece)", 250, 50, 350, 100, "Breakfast", false),
    Food("Aloo Paratha (1 pc)", 280, 60, 380, 120, "Breakfast", false),
    Food("Poha (1 cup)", 110, 20, 240, 10, "Breakfast", true),
    Food("Upma (1 cup)", 140, 40, 260, 20, "Breakfast", true)
  ]

  /** Fruits. */
  const Fruits: seq<FoodItem> := [
    Food("Banana", 105, 13, 270, 3, "Fruit", true),
    Food("Apple", 95, 5, 250, 3, "Fruit", true),
    Food("Orange", 85, 12, 210, 3, "Fruit", true),
    Food("Mango (1 medium)", 135, 10, 350, 4, "Fruit", true),
    Food("Papaya (1 cup)", 55, 9, 140, 2, "Fruit", true),
    Food("Strawberries (1 cup)", 49, 10, 120, 5, "Fruit", true),
    Food("Guava", 68, 26, 140, 10, "Fruit", true)
  ]

  /** Vegetables. */
  const Vegetables: seq<FoodItem> := [
    Food("Carrot (1 medium)", 25, 6, 60, 1, "Vegetable", true),
    Food("Broccoli (1 cup)", 55, 37, 110, 6, "Vegetable", true),
    Food("Spinach (1 cup)", 7, 9, 11, 1, "Vegetable", true),
    Food("Tomato (1 medium)", 22, 11, 50, 2, "Vegetable", true),
    Food("Cucumber (1 cup)", 16, 8, 36, 1, "Vegetable", true)
  ]

  /** Dairy. */
  const DairyItems: seq<FoodItem> := [
    Food("Yogurt (1 cup)", 100, 100, 80, 30, "Dairy", true),
    Food("Greek Yogurt (1 cup)", 130, 200, 90, 5, "Dairy", true),
    Food("Paneer (100g)", 265, 280, 20, 170, "Dairy", true),
    Food("Milk (1 cup)", 150, 80, 120, 80, "Dairy", true),
    Food("Cheese (30g)", 120, 70, 10, 100, "Dairy", false)
  ]

  /** Snacks. */
  const Snacks: seq<FoodItem> := [
    Food("Almonds (10 pcs)", 70, 25, 25, 60, "Snack", true),
    Food("Peanuts (1 oz)", 160, 70, 50, 140, "Snack", true),
    Food("Cashews (10 pcs)", 155, 50, 90, 120, "Snack", true),
    Food("Samosa (1 pc)", 250, 40, 240, 160, "Snack", false),
    Food("Namkeen Mix (30g)", 150, 40, 150, 80, "Snack", false),
    Food("Roasted Chickpeas (1 cup)", 210, 120, 280, 40, "Snack", true)
  ]

  /** Beverages. */
  const Beverages: seq<FoodItem> := [
    Food("Green Tea (1 cup)", 2, 0, 0, 0, "Beverage", true),
    Food("Black Tea with Milk", 30, 10, 40, 10, "Beverage", true),
    Food("Coffee with Milk", 50, 20, 50, 20, "Beverage", true),
    Food("Protein Shake (1 cup)", 150, 200, 100, 30, "Beverage", true)
  ]

  /** The 59 records of the catalog, in the order the planner scans them. */
  const Catalog: seq<FoodItem> :=
    IndianMains
    + BreadsAndGrains
    + Proteins
    + Eggs
    + SouthIndian
    + BreakfastItems
    + Fruits
    + Vegetables
    + DairyItems
    + Snacks
    + Beverages

  /** No two records share a name. */
  predicate DistinctNames(s: seq<FoodItem>)
  {
    forall i, j :: 0 <= i < j < |s| ==> s[i].name != s[j].name
  }

  /** No record of `a` shares its name with a record of `b`. */
  predicate NamesDisjoint(a: seq<FoodItem>, b: seq<FoodItem>)
  {
    forall i, j :: 0 <= i < |a| && 0 <= j < |b| ==> a[i].name != b[j].name
  }

  /** Every amount in every record of `s` is non-negative. */
  predicate AllNonNegative(s: seq<FoodItem>)
  {
    forall i :: 0 <= i < |s| ==> s[i].calories >= 0 && s[i].protein >= 0 && s[i].carbs >= 0 && s[i].fats >= 0
  }

  /** `abs(scale * calories - target)`: how far a record is from a calorie target, both scaled by `scale`. */
  function Gap(f: FoodItem, scale: int, target: int): nat
  {
    if scale * f.calories >= target then scale * f.calories - target else target - scale * f.calories
  }

  /** `s[k]` is no farther from the target than any record of `s`, and strictly nearer than every record before it. */
  predicate NearestAt(s: seq<FoodItem>, k: int, scale: int, target: int)
  {
    && 0 <= k < |s|
    && (forall j :: 0 <= j < |s| ==> Gap(s[k], scale, target) <= Gap(s[j], scale, target))
    && (forall j :: 0 <= j < k ==> Gap(s[j], scale, target) > Gap(s[k], scale, target))
  }

  /**
   * The index of the record nearest to the target, the earliest one on a tie. This
   * is what Python's `min(s, key=gap)` returns, and also `sorted(s, key=gap)[0]`,
   * since `sorted` is stable.
   */
  function Nearest(s: seq<FoodItem>, scale: int, target: int): (k: nat)
    requires |s| > 0
    ensures NearestAt(s, k, scale, target)
  {
    if |s| == 1 then 0
    else
      var k := Nearest(s[..|s| - 1], scale, target);
      assert forall j :: 0 <= j < |s| - 1 ==> s[..|s| - 1][j] == s[j];
      if Gap(s[|s| - 1], scale, target) < Gap(s[k], scale, target) then |s| - 1 else k
  }

  /**
   * `find_food(target_calories * percent / 100)` inside `get_diet_plan`: the record
   * of `db` whose calories are nearest to that share of the day's target. The
   * distance `|c - T * p / 100|` is compared as `|100 * c - T * p|`, which orders
   * the records the same way without fractions.
   */
  function FindFood(db: seq<FoodItem>, targetCalories: int, percent: int): (r: Option<FoodItem>)
    ensures r.None? <==> |db| == 0
    ensures r.Some? ==> exists k :: NearestAt(db, k, 100, targetCalories * percent) && db[k] == r.value
  {
    if |db| == 0 then None else Some(db[Nearest(db, 100, targetCalories * percent)])
  }

  /** The day plan of `get_diet_plan`: one list per slot and the calories of everything chosen. */
  datatype DietPlan = DietPlan(
    breakfast: seq<FoodItem>,
    lunch: seq<FoodItem>,
    dinner: seq<FoodItem>,
    snacks: seq<FoodItem>,
    totalCalories: int)

  /** A found record as a one-element list, nothing as the empty list. */
  function AsList(o: Option<FoodItem>): seq<FoodItem>
  {
    if o.Some? then [o.value] else []
  }

  function SumCalories(s: seq<FoodItem>): int
  {
    if s == [] then 0 else SumCalories(s[..|s| - 1]) + s[|s| - 1].calories
  }

  lemma {:induction false} SumCaloriesAppend(a: seq<FoodItem>, b: seq<FoodItem>)
    ensures SumCalories(a + b) == SumCalories(a) + SumCalories(b)
  {
    if b != [] {
      assert (a + b)[..|a + b| - 1] == a + b[..|b| - 1];
      SumCaloriesAppend(a, b[..|b| - 1]);
    } else {
      assert a + b == a;
    }
  }

  lemma SumCaloriesAsList(o: Option<FoodItem>)
    ensures SumCalories(AsList(o)) == if o.Some? then o.value.calories else 0
  {
    if o.Some? {
      assert AsList(o)[..0] == [];
    }
  }

  /**
   * `get_diet_plan(target_calories)`: breakfast, lunch, dinner and snacks get the
   * record nearest to 20%, 35%, 35% and 10% of the target. Nothing is excluded
   * between slots, so lunch and dinner always receive the same record.
   */
  method GetDietPlan(db: seq<FoodItem>, targetCalories: int) returns (plan: DietPlan)
    ensures plan.breakfast == AsList(FindFood(db, targetCalories, 20))
    ensures plan.lunch == AsList(FindFood(db, targetCalories, 35))
    ensures plan.dinner == AsList(FindFood(db, targetCalories, 35))
    ensures plan.snacks == AsList(FindFood(db, targetCalories, 10))
    ensures |db| > 0 ==> |plan.breakfast| == 1 && |plan.lunch| == 1 && |plan.dinner| == 1 && |plan.snacks| == 1
    ensures |db| == 0 ==> plan == DietPlan([], [], [], [], 0)
    ensures plan.lunch == plan.dinner
    ensures plan.totalCalories == SumCalories(plan.breakfast + plan.lunch + plan.dinner + plan.snacks)
  {
    plan := DietPlan([], [], [], [], 0);
    var b := FindFood(db, targetCalories, 20);
    if b.Some? {
      plan := plan.(breakfast := plan.breakfast + [b.value], totalCalories := plan.totalCalories + b.value.calories);
    }
    SumCaloriesAsList(b);
    assert plan.breakfast == AsList(b) && plan.totalCalories == SumCalories(plan.breakfast);
    var l := FindFood(db, targetCalories, 35);
    if l.Some? {
      plan := plan.(lunch := plan.lunch + [l.value], totalCalories := plan.totalCalories + l.value.calories);
    }
    SumCaloriesAsList(l);
    SumCaloriesAppend(plan.breakfast, plan.lunch);
    assert plan.lunch == AsList(l) && plan.totalCalories == SumCalories(plan.breakfast + plan.lunch);
    var d := FindFood(db, targetCalories, 35);
    if d.Some? {
      plan := plan.(dinner := plan.dinner + [d.value], totalCalories := plan.totalCalories + d.value.calories);
    }
    SumCaloriesAsList(d);
    SumCaloriesAppend(plan.breakfast + plan.lunch, plan.dinner);
    assert plan.dinner == AsList(d) && plan.totalCalories == SumCalories(plan.breakfast + plan.lunch + plan.dinner);
    var s := FindFood(db, targetCalories, 10);
    if s.Some? {
      plan := plan.(snacks := plan.snacks + [s.value], totalCalories := plan.totalCalories + s.value.calories);
    }
    SumCaloriesAsList(s);
    SumCaloriesAppend(plan.breakfast + plan.lunch + plan.dinner, plan.snacks);
  }

  /** The healthy records of `db`, in order: `[f for f in db if f['healthy']]`. */
  function HealthyFoods(db: seq<FoodItem>): (r: seq<FoodItem>)
    ensures forall f :: f in r <==> f in db && f.healthy
  {
    if db == [] then [] else (if db[0].healthy then [db[0]] else []) + HealthyFoods(db[1..])
  }

  /**
   * `get_healthy_suggestion()`: `random.choice` over the healthy records, or None
   * when there is none. The random draw is the caller's `pick`, reduced modulo the
   * number of healthy records.
   */
  function HealthySuggestion(db: seq<FoodItem>, pick: nat): (r: Option<FoodItem>)
    ensures r.None? <==> forall f :: f in db ==> !f.healthy
    ensures r.Some? ==> r.value in db && r.value.healthy
  {
    var healthy := HealthyFoods(db);
    if |healthy| == 0 then None
    else
      assert healthy[0] in healthy;
      Some(healthy[pick % |healthy|])
  }
}
