/**
 * The meal suggestion engine: filter, rank and truncate queries over a food list
 * (the catalog, which the engine holds and never changes), plus the main-and-side
 * combination search.
 */
module MealSuggestions {
  import opened Wrappers
  import opened FoodData
  import Text

  /**
   * The meal a query starts from: a dictionary that may lack any of its keys.
   * A catalog record has all three.
   */
  datatype MealRef = MealRef(name: Option<string>, calories: Option<int>, category: Option<string>)

  function FromFood(f: FoodItem): MealRef
  {
    MealRef(Some(f.name), Some(f.calories), Some(f.category))
  }

  /** `current_meal.get('calories', 200)`. */
  function TargetCalories(m: MealRef): int
  {
    if m.calories.Some? then m.calories.value else 200
  }

  /** `current_meal.get('category', 'Breakfast')`. */
  function TargetCategory(m: MealRef): string
  {
    if m.category.Some? then m.category.value else "Breakfast"
  }

  /** `f['name'] != current_meal.get('name')`: a meal without a name excludes nothing. */
  predicate OtherThan(f: FoodItem, m: MealRef)
  {
    m.name != Some(f.name)
  }

  /** The filters of the engine's list comprehensions. */
  datatype Query =
    | WithinRange(meal: MealRef, range: int)
    | Healthier(meal: MealRef)
    | SameCategory(meal: MealRef)
    | ProteinRich(meal: MealRef)
    | LowCarb(meal: MealRef)
    | NameContains(needle: string)
    | CaloriesBetween(lo: int, hi: int)
    | ProteinBetween(lo: int, hi: int)

  /** The comprehension's condition for each query (protein and carbs in tenths of a gram). */
  predicate Matches(q: Query, f: FoodItem)
  {
    match q
    case WithinRange(m, range) =>
      TargetCalories(m) - range <= f.calories <= TargetCalories(m) + range && OtherThan(f, m)
    case Healthier(m) => f.healthy && Gap(f, 1, TargetCalories(m)) <= 80 && OtherThan(f, m)
    case SameCategory(m) => f.category == TargetCategory(m) && OtherThan(f, m)
    case ProteinRich(m) => f.protein >= 200 && Gap(f, 1, TargetCalories(m)) <= 100 && OtherThan(f, m)
    case LowCarb(m) => f.carbs <= 150 && Gap(f, 1, TargetCalories(m)) <= 100 && OtherThan(f, m)
    case NameContains(needle) => Text.Contains(Text.Lower(f.name), needle)
    case CaloriesBetween(lo, hi) => lo <= f.calories <= hi
    case ProteinBetween(lo, hi) => lo <= f.protein <= hi
  }

  /** `[f for f in db if <q>]`: the matching records, in the order of `db`. */
  function Select(db: seq<FoodItem>, q: Query): seq<FoodItem>
  {
    if db == [] then [] else (if Matches(q, db[0]) then [db[0]] else []) + Select(db[1..], q)
  }

  /** A record is selected exactly when it is in the list and matches the query. */
  lemma {:induction false} SelectMembers(db: seq<FoodItem>, q: Query)
    ensures forall f :: f in Select(db, q) <==> f in db && Matches(q, f)
  {
    if db != [] {
      SelectMembers(db[1..], q);
      assert db == [db[0]] + db[1..];
    }
  }

  /** Filtering keeps order: the selection from two lists laid end to end is their selections laid end to end. */
  lemma {:induction false} SelectAppend(a: seq<FoodItem>, b: seq<FoodItem>, q: Query)
    ensures Select(a + b, q) == Select(a, q) + Select(b, q)
  {
    if a != [] {
      assert (a + b)[1..] == a[1..] + b;
      SelectAppend(a[1..], b, q);
    } else {
      assert a + b == b;
    }
  }

  /** The sort keys the engine uses: calorie distance, protein (descending) and carbohydrate. */
  datatype SortKey = ByGap(target: int) | ByProteinDesc | ByCarbs

  /** An ascending key; `reverse=True` on protein is ascending on its negation, equal keys kept in order either way. */
  function Key(k: SortKey, f: FoodItem): int
  {
    match k
    case ByGap(target) => Gap(f, 1, target)
    case ByProteinDesc => -f.protein
    case ByCarbs => f.carbs
  }

  predicate SortedBy(s: seq<FoodItem>, k: SortKey)
  {
    forall i, j :: 0 <= i < j < |s| ==> Key(k, s[i]) <= Key(k, s[j])
  }

  /** Inserts `x` before the first record whose key is not smaller, so `x` precedes the records of equal key. */
  function Insert(x: FoodItem, s: seq<FoodItem>, k: SortKey): seq<FoodItem>
  {
    if s == [] || Key(k, x) <= Key(k, s[0]) then [x] + s
    else [s[0]] + Insert(x, s[1..], k)
  }

  /** Inserting adds `x` and keeps every other record. */
  lemma {:induction false} InsertPermutes(x: FoodItem, s: seq<FoodItem>, k: SortKey)
    ensures multiset(Insert(x, s, k)) == multiset(s) + multiset{x}
  {
    if !(s == [] || Key(k, x) <= Key(k, s[0])) {
      InsertPermutes(x, s[1..], k);
      assert s == [s[0]] + s[1..];
    }
  }

  /** A record no larger than anything in a sorted list may go in front of it. */
  lemma SortedCons(a: FoodItem, t: seq<FoodItem>, k: SortKey)
    requires SortedBy(t, k)
    requires forall j :: 0 <= j < |t| ==> Key(k, a) <= Key(k, t[j])
    ensures SortedBy([a] + t, k)
  {
    var r := [a] + t;
    forall i, j | 0 <= i < j < |r| ensures Key(k, r[i]) <= Key(k, r[j]) {
      assert r[j] == t[j - 1];
      if i > 0 {
        assert r[i] == t[i - 1];
      }
    }
  }

  /** Inserting into a sorted list keeps it sorted. */
  lemma {:induction false} InsertSorted(x: FoodItem, s: seq<FoodItem>, k: SortKey)
    requires SortedBy(s, k)
    ensures SortedBy(Insert(x, s, k), k)
  {
    if s == [] || Key(k, x) <= Key(k, s[0]) {
      SortedCons(x, s, k);
    } else {
      var rest := Insert(x, s[1..], k);
      InsertSorted(x, s[1..], k);
      InsertPermutes(x, s[1..], k);
      forall j | 0 <= j < |rest| ensures Key(k, s[0]) <= Key(k, rest[j]) {
        assert rest[j] in multiset(rest);
        if rest[j] != x {
          assert rest[j] in s[1..];
          var m :| 0 <= m < |s[1..]| && s[1..][m] == rest[j];
          assert s[m + 1] == rest[j];
        }
      }
      SortedCons(s[0], rest, k);
    }
  }

  /** Python's `list.sort(key=...)`: an ascending, stable sort (here by insertion). */
  function SortBy(s: seq<FoodItem>, k: SortKey): (r: seq<FoodItem>)
    ensures multiset(r) == multiset(s)
    ensures SortedBy(r, k)
  {
    if s == [] then []
    else
      assert s == [s[0]] + s[1..];
      InsertSorted(s[0], SortBy(s[1..], k), k);
      InsertPermutes(s[0], SortBy(s[1..], k), k);
      Insert(s[0], SortBy(s[1..], k), k)
  }

  /** The records of `s` whose key is `v`, in order. */
  function WithKey(s: seq<FoodItem>, k: SortKey, v: int): seq<FoodItem>
  {
    if s == [] then [] else (if Key(k, s[0]) == v then [s[0]] else []) + WithKey(s[1..], k, v)
  }

  /** `WithKey` looks at the head of a list, then the rest. */
  lemma WithKeyCons(y: FoodItem, t: seq<FoodItem>, k: SortKey, v: int)
    ensures WithKey([y] + t, k, v) == (if Key(k, y) == v then [y] else []) + WithKey(t, k, v)
  {
    assert ([y] + t)[1..] == t;
  }

  /** Inserting `x` places it first among the records of its key. */
  lemma {:induction false} InsertWithKey(x: FoodItem, s: seq<FoodItem>, k: SortKey, v: int)
    ensures WithKey(Insert(x, s, k), k, v) == (if Key(k, x) == v then [x] else []) + WithKey(s, k, v)
  {
    if s == [] || Key(k, x) <= Key(k, s[0]) {
      WithKeyCons(x, s, k, v);
    } else {
      var rest := Insert(x, s[1..], k);
      var tail := WithKey(s[1..], k, v);
      assert Insert(x, s, k) == [s[0]] + rest;
      InsertWithKey(x, s[1..], k, v);
      WithKeyCons(s[0], rest, k, v);
      WithKeyCons(s[0], s[1..], k, v);
      assert s == [s[0]] + s[1..];
      if Key(k, s[0]) == v {
        assert WithKey(Insert(x, s, k), k, v) == [s[0]] + tail;
      } else if Key(k, x) == v {
        assert WithKey(Insert(x, s, k), k, v) == [x] + tail;
      } else {
        assert WithKey(Insert(x, s, k), k, v) == tail;
      }
    }
  }

  /** The sort is stable: among records of equal key, the input order survives. */
  lemma {:induction false} SortByStable(s: seq<FoodItem>, k: SortKey, v: int)
    ensures WithKey(SortBy(s, k), k, v) == WithKey(s, k, v)
  {
    if s != [] {
      SortByStable(s[1..], k, v);
      InsertWithKey(s[0], SortBy(s[1..], k), k, v);
    }
  }

  /** `WithKey` distributes over concatenation. */
  lemma {:induction false} WithKeyAppend(a: seq<FoodItem>, b: seq<FoodItem>, k: SortKey, v: int)
    ensures WithKey(a + b, k, v) == WithKey(a, k, v) + WithKey(b, k, v)
  {
    if a == [] {
      assert a + b == b;
    } else {
      WithKeyAppend(a[1..], b, k, v);
      WithKeyCons(a[0], a[1..] + b, k, v);
      WithKeyCons(a[0], a[1..], k, v);
      assert a + b == [a[0]] + (a[1..] + b);
      assert a == [a[0]] + a[1..];
    }
  }

  /** For every key value, the records of `r` with that key are the first records of `s` with it, in `s`'s order. */
  ghost predicate KeepsTies(r: seq<FoodItem>, s: seq<FoodItem>, k: SortKey)
  {
    forall v :: WithKey(r, k, v) <= WithKey(s, k, v)
  }

  function Min(a: int, b: int): int
  {
    if a <= b then a else b
  }

  /** Python's `s[:limit]`; a negative limit drops that many records from the end. */
  function Slice(s: seq<FoodItem>, limit: int): (r: seq<FoodItem>)
    ensures |r| <= |s| && r == s[..|r|]
    ensures limit >= 0 ==> |r| == Min(limit, |s|)
    ensures limit < 0 ==> |r| == if |s| + limit > 0 then |s| + limit else 0
  {
    if limit >= 0 then (if limit < |s| then s[..limit] else s)
    else if |s| + limit > 0 then s[..|s| + limit]
    else []
  }

  /** `sorted(s, key=k)[:limit]`: the `limit` best records of `s`. */
  function Ranked(s: seq<FoodItem>, k: SortKey, limit: int): seq<FoodItem>
  {
    Slice(SortBy(s, k), limit)
  }

  /** A slice holds no record more often than the list it is cut from. */
  lemma SliceFrom(s: seq<FoodItem>, limit: int)
    ensures multiset(Slice(s, limit)) <= multiset(s)
  {
    var r := Slice(s, limit);
    assert s == r + s[|r|..];
  }

  /** No record of `cands` left out of `r` ranks strictly before a record kept in `r`. */
  predicate Best(r: seq<FoodItem>, cands: seq<FoodItem>, k: SortKey)
  {
    forall f, g :: f in cands && f !in r && g in r ==> Key(k, g) <= Key(k, f)
  }

  /** Every record of a sub-multiset is a record of the whole. */
  lemma SubMembers(r: seq<FoodItem>, s: seq<FoodItem>)
    requires multiset(r) <= multiset(s)
    ensures forall f :: f in r ==> f in s
  {
    forall f | f in r ensures f in s {
      assert f in multiset(r);
    }
  }

  /** In a sorted list, no record beyond a cut ranks before one ahead of it. */
  lemma {:induction false} SortedCut(t: seq<FoodItem>, k: SortKey, n: nat)
    requires SortedBy(t, k) && n <= |t|
    ensures forall f, g :: f in t && f !in t[..n] && g in t[..n] ==> Key(k, g) <= Key(k, f)
  {
    forall f, g | f in t && f !in t[..n] && g in t[..n] ensures Key(k, g) <= Key(k, f) {
      var fi :| 0 <= fi < |t| && t[fi] == f;
      var gi :| 0 <= gi < n && t[..n][gi] == g;
    }
  }

  /**
   * Sorting then slicing keeps the best records: the result is sorted, drawn from
   * `s`, as long as the limit allows, and no record left out ranks before one kept.
   */
  lemma RankedBest(s: seq<FoodItem>, k: SortKey, limit: int)
    ensures var r := Ranked(s, k, limit);
      && SortedBy(r, k)
      && multiset(r) <= multiset(s)
      && (limit >= 0 ==> |r| == Min(limit, |s|))
      && Best(r, s, k)
  {
    var t := SortBy(s, k);
    var r := Slice(t, limit);
    SliceFrom(t, limit);
    SortedCut(t, k, |r|);
    assert forall f :: f in s ==> f in multiset(t);
  }

  /**
   * `r` is what `sorted(s, key=k)[:limit]` can be: each record at most as often as
   * in `s`, sorted, as long as the limit allows, no left-out record ranking before
   * a kept one, and records of equal key in `s`'s order.
   */
  ghost predicate RankedFrom(r: seq<FoodItem>, s: seq<FoodItem>, k: SortKey, limit: int)
  {
    && multiset(r) <= multiset(s)
    && SortedBy(r, k)
    && (limit >= 0 ==> |r| == Min(limit, |s|))
    && Best(r, s, k)
    && KeepsTies(r, s, k)
  }

  /** Sort-then-slice breaks ties as the stable sort does: equal keys keep their input order. */
  lemma RankedKeepsTies(s: seq<FoodItem>, k: SortKey, limit: int)
    ensures KeepsTies(Ranked(s, k, limit), s, k)
  {
    var t := SortBy(s, k);
    var r := Ranked(s, k, limit);
    assert t == r + t[|r|..];
    forall v
      ensures WithKey(r, k, v) <= WithKey(s, k, v)
    {
      WithKeyAppend(r, t[|r|..], k, v);
      SortByStable(s, k, v);
    }
  }

  /** Every record of `s` is a record of `db` that passes the filter `q`. */
  predicate AllMatch(s: seq<FoodItem>, db: seq<FoodItem>, q: Query)
  {
    forall f :: f in s ==> f in db && Matches(q, f)
  }

  /** A ranked query returns matching records of `db` only. */
  lemma RankedQueryMembers(db: seq<FoodItem>, q: Query, k: SortKey, limit: int)
    ensures AllMatch(Ranked(Select(db, q), k, limit), db, q)
  {
    var s := Select(db, q);
    SelectMembers(db, q);
    RankedBest(s, k, limit);
    SubMembers(Ranked(s, k, limit), s);
  }

  /** A ranked query ranks the matching records as `sorted(...)[:limit]` ranks them. */
  lemma RankedQuery(db: seq<FoodItem>, q: Query, k: SortKey, limit: int)
    ensures RankedFrom(Ranked(Select(db, q), k, limit), Select(db, q), k, limit)
  {
    RankedBest(Select(db, q), k, limit);
    RankedKeepsTies(Select(db, q), k, limit);
  }

  /**
   * `get_alternative_meals(current_meal, calorie_range, limit)`: records within
   * `calorie_range` calories of the meal, other than the meal itself, in random
   * order, at most `limit` of them. The shuffle is the caller's `shuffled`, any
   * rearrangement of the matching records.
   */
  function AlternativeMeals(db: seq<FoodItem>, meal: MealRef, calorieRange: int, limit: int, shuffled: seq<FoodItem>): (r: seq<FoodItem>)
    requires multiset(shuffled) == multiset(Select(db, WithinRange(meal, calorieRange)))
    ensures forall f :: f in r ==>
      && f in db
      && TargetCalories(meal) - calorieRange <= f.calories <= TargetCalories(meal) + calorieRange
      && OtherThan(f, meal)
    ensures AllMatch(r, db, WithinRange(meal, calorieRange))
    ensures multiset(r) <= multiset(Select(db, WithinRange(meal, calorieRange)))
    ensures limit >= 0 ==> |r| == Min(limit, |Select(db, WithinRange(meal, calorieRange))|)
  {
    var s := Select(db, WithinRange(meal, calorieRange));
    var r := Slice(shuffled, limit);
    SelectMembers(db, WithinRange(meal, calorieRange));
    SliceFrom(shuffled, limit);
    SubMembers(r, s);
    assert |shuffled| == |s| by {
      assert |multiset(shuffled)| == |multiset(s)|;
    }
    r
  }

  /**
   * `get_healthier_alternatives(current_meal, limit)`: healthy records within 80
   * calories of the meal, other than the meal, nearest first, at most `limit`.
   */
  function HealthierAlternatives(db: seq<FoodItem>, meal: MealRef, limit: int): (r: seq<FoodItem>)
    ensures forall f :: f in r ==> f in db && f.healthy && Gap(f, 1, TargetCalories(meal)) <= 80 && OtherThan(f, meal)
    ensures AllMatch(r, db, Healthier(meal))
  {
    var q := Healthier(meal);
    RankedQueryMembers(db, q, ByGap(TargetCalories(meal)), limit);
    var r := Ranked(Select(db, q), ByGap(TargetCalories(meal)), limit);
    assert AllMatch(r, db, q);
    r
  }

  /** `HealthierAlternatives` ranks the matching records as the source's sort does, ties in catalog order. */
  lemma HealthierAlternativesRanked(db: seq<FoodItem>, meal: MealRef, limit: int)
    ensures RankedFrom(HealthierAlternatives(db, meal, limit), Select(db, Healthier(meal)), ByGap(TargetCalories(meal)), limit)
  {
    RankedQuery(db, Healthier(meal), ByGap(TargetCalories(meal)), limit);
  }

  /**
   * `get_similar_category_meals(current_meal, limit)`: records of the meal's
   * category (default "Breakfast"), other than the meal, nearest in calories first,
   * at most `limit`.
   */
  function SimilarCategoryMeals(db: seq<FoodItem>, meal: MealRef, limit: int): (r: seq<FoodItem>)
    ensures forall f :: f in r ==> f in db && f.category == TargetCategory(meal) && OtherThan(f, meal)
    ensures AllMatch(r, db, SameCategory(meal))
  {
    var q := SameCategory(meal);
    RankedQueryMembers(db, q, ByGap(TargetCalories(meal)), limit);
    var r := Ranked(Select(db, q), ByGap(TargetCalories(meal)), limit);
    assert AllMatch(r, db, q);
    r
  }

  /** `SimilarCategoryMeals` ranks the matching records as the source's sort does, ties in catalog order. */
  lemma SimilarCategoryMealsRanked(db: seq<FoodItem>, meal: MealRef, limit: int)
    ensures RankedFrom(SimilarCategoryMeals(db, meal, limit), Select(db, SameCategory(meal)), ByGap(TargetCalories(meal)), limit)
  {
    RankedQuery(db, SameCategory(meal), ByGap(TargetCalories(meal)), limit);
  }

  /**
   * `get_protein_boosted_meals(current_meal, limit)`: records with at least 20 g of
   * protein within 100 calories of the meal, other than the meal, most protein
   * first, at most `limit`.
   */
  function ProteinBoostedMeals(db: seq<FoodItem>, meal: MealRef, limit: int): (r: seq<FoodItem>)
    ensures forall f :: f in r ==> f in db && f.protein >= 200 && Gap(f, 1, TargetCalories(meal)) <= 100 && OtherThan(f, meal)
    ensures AllMatch(r, db, ProteinRich(meal))
  {
    var q := ProteinRich(meal);
    RankedQueryMembers(db, q, ByProteinDesc, limit);
    var r := Ranked(Select(db, q), ByProteinDesc, limit);
    assert AllMatch(r, db, q);
    r
  }

  /** `ProteinBoostedMeals` ranks the matching records as the source's sort does, ties in catalog order. */
  lemma ProteinBoostedMealsRanked(db: seq<FoodItem>, meal: MealRef, limit: int)
    ensures RankedFrom(ProteinBoostedMeals(db, meal, limit), Select(db, ProteinRich(meal)), ByProteinDesc, limit)
  {
    RankedQuery(db, ProteinRich(meal), ByProteinDesc, limit);
  }

  /**
   * `get_low_carb_meals(current_meal, limit)`: records with at most 15 g of
   * carbohydrate within 100 calories of the meal, other than the meal, fewest
   * carbohydrates first, at most `limit`.
   */
  function LowCarbMeals(db: seq<FoodItem>, meal: MealRef, limit: int): (r: seq<FoodItem>)
    ensures forall f :: f in r ==> f in db && f.carbs <= 150 && Gap(f, 1, TargetCalories(meal)) <= 100 && OtherThan(f, meal)
    ensures AllMatch(r, db, LowCarb(meal))
  {
    var q := LowCarb(meal);
    RankedQueryMembers(db, q, ByCarbs, limit);
    var r := Ranked(Select(db, q), ByCarbs, limit);
    assert AllMatch(r, db, q);
    r
  }

  /** `LowCarbMeals` ranks the matching records as the source's sort does, ties in catalog order. */
  lemma LowCarbMealsRanked(db: seq<FoodItem>, meal: MealRef, limit: int)
    ensures RankedFrom(LowCarbMeals(db, meal, limit), Select(db, LowCarb(meal)), ByCarbs, limit)
  {
    RankedQuery(db, LowCarb(meal), ByCarbs, limit);
  }

  /**
   * `search_meals(query, limit)`: the first `limit` records, in list order, whose
   * lower-cased name contains the lower-cased query.
   */
  function SearchMeals(db: seq<FoodItem>, query: string, limit: int): (r: seq<FoodItem>)
    ensures forall f :: f in r ==> f in db && Text.Contains(Text.Lower(f.name), Text.Lower(query))
    ensures var s := Select(db, NameContains(Text.Lower(query))); |r| <= |s| && r == s[..|r|]
    ensures limit >= 0 ==> |r| == Min(limit, |Select(db, NameContains(Text.Lower(query)))|)
  {
    var s := Select(db, NameContains(Text.Lower(query)));
    SelectMembers(db, NameContains(Text.Lower(query)));
    var r := Slice(s, limit);
    assert forall f :: f in r ==> f in s;
    r
  }

  /** Searching is case-insensitive: a query and its lower-cased form find the same records. */
  lemma SearchIgnoresCase(db: seq<FoodItem>, query: string, limit: int)
    ensures SearchMeals(db, Text.Lower(query), limit) == SearchMeals(db, query, limit)
  {
    Text.LowerIdempotent(query);
  }

  /**
   * `get_meals_by_calories(min_cal, max_cal, limit)`: records with calories in
   * `[minCal, maxCal]`, in random order, at most `limit`. The shuffle is the
   * caller's `shuffled`, any rearrangement of the matching records.
   */
  function MealsByCalories(db: seq<FoodItem>, minCal: int, maxCal: int, limit: int, shuffled: seq<FoodItem>): (r: seq<FoodItem>)
    requires multiset(shuffled) == multiset(Select(db, CaloriesBetween(minCal, maxCal)))
    ensures forall f :: f in r ==> f in db && minCal <= f.calories <= maxCal
    ensures multiset(r) <= multiset(Select(db, CaloriesBetween(minCal, maxCal)))
    ensures limit >= 0 ==> |r| == Min(limit, |Select(db, CaloriesBetween(minCal, maxCal))|)
  {
    var s := Select(db, CaloriesBetween(minCal, maxCal));
    var r := Slice(shuffled, limit);
    SelectMembers(db, CaloriesBetween(minCal, maxCal));
    SliceFrom(shuffled, limit);
    SubMembers(r, s);
    assert |shuffled| == |s| by {
      assert |multiset(shuffled)| == |multiset(s)|;
    }
    r
  }

  /** The upper protein bound of `get_meals_by_protein`: 100 g when none is given. */
  function MaxProtein(maxProtein: Option<int>): int
  {
    if maxProtein.Some? then maxProtein.value else 1000
  }

  /**
   * `get_meals_by_protein(min_protein, max_protein, limit)`: records whose protein
   * lies in `[minProtein, maxProtein]` (100 g when no maximum is given), most
   * protein first, at most `limit`.
   */
  function MealsByProtein(db: seq<FoodItem>, minProtein: int, maxProtein: Option<int>, limit: int): (r: seq<FoodItem>)
    ensures forall f :: f in r ==> f in db && minProtein <= f.protein <= MaxProtein(maxProtein)
    ensures AllMatch(r, db, ProteinBetween(minProtein, MaxProtein(maxProtein)))
  {
    var q := ProteinBetween(minProtein, MaxProtein(maxProtein));
    RankedQueryMembers(db, q, ByProteinDesc, limit);
    var r := Ranked(Select(db, q), ByProteinDesc, limit);
    assert AllMatch(r, db, q);
    r
  }

  /** `MealsByProtein` ranks the matching records as the source's sort does, ties in catalog order. */
  lemma MealsByProteinRanked(db: seq<FoodItem>, minProtein: int, maxProtein: Option<int>, limit: int)
    ensures RankedFrom(MealsByProtein(db, minProtein, maxProtein, limit), Select(db, ProteinBetween(minProtein, MaxProtein(maxProtein))), ByProteinDesc, limit)
  {
    RankedQuery(db, ProteinBetween(minProtein, MaxProtein(maxProtein)), ByProteinDesc, limit);
  }

  /** A main-and-side pair of `get_combo_meal_suggestions`, with its summed totals. */
  datatype Combo = Combo(main: FoodItem, side: FoodItem, totalCalories: int, totalProtein: int, totalCarbs: int, totalFats: int)

  function MakeCombo(main: FoodItem, side: FoodItem): Combo
  {
    Combo(main, side, main.calories + side.calories, main.protein + side.protein,
          main.carbs + side.carbs, main.fats + side.fats)
  }

  /** A pair is offered when its calories are strictly within 50 of the target. */
  predicate Pairs(main: FoodItem, side: FoodItem, target: int)
  {
    -50 < main.calories + side.calories - target < 50
  }

  /** `food_db[:20]`, the candidate mains. */
  function Mains(db: seq<FoodItem>): seq<FoodItem>
  {
    db[..Min(20, |db|)]
  }

  /** `food_db[20:40]`, the candidate sides. */
  function Sides(db: seq<FoodItem>): seq<FoodItem>
  {
    db[Min(20, |db|)..Min(40, |db|)]
  }

  /** The combos one main forms with `sides`, in side order. */
  function SidesFor(main: FoodItem, sides: seq<FoodItem>, target: int): seq<Combo>
  {
    if sides == [] then []
    else
      SidesFor(main, sides[..|sides| - 1], target)
        + (if Pairs(main, sides[|sides| - 1], target) then [MakeCombo(main, sides[|sides| - 1])] else [])
  }

  /**
   * The outer loop of `get_combo_meal_suggestions` from `acc` on: a main heavier
   * than the target is skipped (before the count check), otherwise its combos are
   * appended and the search stops once there are at least three.
   */
  function CombosFrom(mains: seq<FoodItem>, sides: seq<FoodItem>, target: int, acc: seq<Combo>): seq<Combo>
  {
    if mains == [] then acc
    else if target - mains[0].calories < 0 then CombosFrom(mains[1..], sides, target, acc)
    else
      var next := acc + SidesFor(mains[0], sides, target);
      if |next| >= 3 then next else CombosFrom(mains[1..], sides, target, next)
  }

  /** What every offered combo satisfies. */
  predicate ValidCombo(c: Combo, mains: seq<FoodItem>, sides: seq<FoodItem>, target: int)
  {
    && c.main in mains && c.main.calories <= target
    && c.side in sides
    && Pairs(c.main, c.side, target)
    && c == MakeCombo(c.main, c.side)
  }

  lemma {:induction false} SidesForValid(main: FoodItem, mains: seq<FoodItem>, sides: seq<FoodItem>, target: int)
    requires main in mains && main.calories <= target
    ensures forall c :: c in SidesFor(main, sides, target) ==> ValidCombo(c, mains, sides, target)
  {
    if sides != [] {
      SidesForValid(main, mains, sides[..|sides| - 1], target);
    }
  }

  /** A pair is among one main's combos exactly when it qualifies. */
  lemma {:induction false} SidesForHas(main: FoodItem, sides: seq<FoodItem>, target: int, side: FoodItem)
    ensures MakeCombo(main, side) in SidesFor(main, sides, target) <==> side in sides && Pairs(main, side, target)
  {
    if sides != [] {
      SidesForHas(main, sides[..|sides| - 1], target, side);
      assert sides == sides[..|sides| - 1] + [sides[|sides| - 1]];
    }
  }

  /**
   * Every combo offered has its main from the mains, no heavier than the target,
   * its side from the sides, calories within 50 of the target and summed totals.
   */
  lemma {:induction false} CombosValid(all: seq<FoodItem>, mains: seq<FoodItem>, sides: seq<FoodItem>, target: int, acc: seq<Combo>)
    requires forall m :: m in mains ==> m in all
    requires forall c :: c in acc ==> ValidCombo(c, all, sides, target)
    ensures forall c :: c in CombosFrom(mains, sides, target, acc) ==> ValidCombo(c, all, sides, target)
  {
    if mains != [] {
      if target - mains[0].calories < 0 {
        CombosValid(all, mains[1..], sides, target, acc);
      } else {
        var next := acc + SidesFor(mains[0], sides, target);
        SidesForValid(mains[0], all, sides, target);
        if |next| < 3 {
          CombosValid(all, mains[1..], sides, target, next);
        }
      }
    }
  }

  /** The search only appends: what was found so far stays, in order, at the front. */
  lemma {:induction false} CombosExtend(mains: seq<FoodItem>, sides: seq<FoodItem>, target: int, acc: seq<Combo>)
    ensures var r := CombosFrom(mains, sides, target, acc); |acc| <= |r| && r[..|acc|] == acc
  {
    if mains != [] {
      var next := acc + SidesFor(mains[0], sides, target);
      if target - mains[0].calories < 0 {
        CombosExtend(mains[1..], sides, target, acc);
      } else if |next| < 3 {
        CombosExtend(mains[1..], sides, target, next);
        assert next[..|acc|] == acc;
      } else {
        assert next[..|acc|] == acc;
      }
    }
  }

  /**
   * When fewer than three combos come back, the search never stopped early: every
   * qualifying pair of a main no heavier than the target and a side is among them.
   */
  lemma {:induction false} CombosComplete(mains: seq<FoodItem>, sides: seq<FoodItem>, target: int, acc: seq<Combo>)
    requires |CombosFrom(mains, sides, target, acc)| < 3
    ensures forall m, s :: m in mains && m.calories <= target && s in sides && Pairs(m, s, target) ==>
      MakeCombo(m, s) in CombosFrom(mains, sides, target, acc)
  {
    if mains != [] {
      var r := CombosFrom(mains, sides, target, acc);
      if target - mains[0].calories < 0 {
        CombosComplete(mains[1..], sides, target, acc);
      } else {
        var next := acc + SidesFor(mains[0], sides, target);
        assert |next| < 3;
        CombosComplete(mains[1..], sides, target, next);
        CombosExtend(mains[1..], sides, target, next);
        forall s | s in sides && Pairs(mains[0], s, target) ensures MakeCombo(mains[0], s) in r {
          SidesForHas(mains[0], sides, target, s);
          assert MakeCombo(mains[0], s) in next;
          assert r[..|next|] == next;
        }
      }
    }
  }

  /**
   * `get_combo_meal_suggestions(target_calories, macro_target)`: pairs a main from
   * the first twenty records with a side from the next twenty, scanning mains in
   * order and stopping after the first main that brings the count to three.
   */
  method ComboMealSuggestions(db: seq<FoodItem>, targetCalories: int) returns (combos: seq<Combo>)
    ensures combos == CombosFrom(Mains(db), Sides(db), targetCalories, [])
    ensures forall c :: c in combos ==> ValidCombo(c, Mains(db), Sides(db), targetCalories)
    ensures |combos| < 3 ==> forall m, s ::
      m in Mains(db) && m.calories <= targetCalories && s in Sides(db) && Pairs(m, s, targetCalories) ==>
      MakeCombo(m, s) in combos
  {
    var mains := Mains(db);
    var sides := Sides(db);
    combos := [];
    var i := 0;
    while i < |mains|
      invariant 0 <= i <= |mains|
      invariant CombosFrom(mains[i..], sides, targetCalories, combos) == CombosFrom(mains, sides, targetCalories, [])
    {
      var main := mains[i];
      assert mains[i..][0] == main && mains[i..][1..] == mains[i + 1..];
      if targetCalories - main.calories < 0 {
        i := i + 1;
        continue;
      }
      ghost var before := combos;
      var j := 0;
      while j < |sides|
        invariant 0 <= j <= |sides|
        invariant combos == before + SidesFor(main, sides[..j], targetCalories)
      {
        assert sides[..j + 1][..j] == sides[..j];
        if -50 < main.calories + sides[j].calories - targetCalories < 50 {
          combos := combos + [MakeCombo(main, sides[j])];
        }
        j := j + 1;
      }
      assert sides[..j] == sides;
      if |combos| >= 3 {
        break;
      }
      i := i + 1;
    }
    CombosValid(mains, mains, sides, targetCalories, []);
    if |combos| < 3 {
      CombosComplete(mains, sides, targetCalories, []);
    }
  }

  /** The dictionary `get_daily_suggestions` returns: always these seven keys, one field each. */
  datatype DailySuggestions = DailySuggestions(
    breakfastAlternatives: seq<FoodItem>,
    breakfastHealthier: seq<FoodItem>,
    lunchAlternatives: seq<FoodItem>,
    lunchHighProtein: seq<FoodItem>,
    dinnerAlternatives: seq<FoodItem>,
    dinnerLowCarb: seq<FoodItem>,
    snackAlternatives: seq<FoodItem>)

  /**
   * `get_daily_suggestions(breakfast, lunch, dinner, snack, tdee)`: three
   * alternatives for each meal (within the default 50 calories), two healthier
   * breakfasts, two protein-boosted lunches and two low-carb dinners. The four
   * shuffles are the caller's, one per meal, as in `AlternativeMeals`.
   */
  function GetDailySuggestions(db: seq<FoodItem>, breakfast: MealRef, lunch: MealRef, dinner: MealRef, snack: MealRef,
                               shuffles: seq<seq<FoodItem>>): (r: DailySuggestions)
    requires |shuffles| == 4
    requires multiset(shuffles[0]) == multiset(Select(db, WithinRange(breakfast, 50)))
    requires multiset(shuffles[1]) == multiset(Select(db, WithinRange(lunch, 50)))
    requires multiset(shuffles[2]) == multiset(Select(db, WithinRange(dinner, 50)))
    requires multiset(shuffles[3]) == multiset(Select(db, WithinRange(snack, 50)))
    ensures |r.breakfastAlternatives| == Min(3, |Select(db, WithinRange(breakfast, 50))|)
    ensures |r.lunchAlternatives| == Min(3, |Select(db, WithinRange(lunch, 50))|)
    ensures |r.dinnerAlternatives| == Min(3, |Select(db, WithinRange(dinner, 50))|)
    ensures |r.snackAlternatives| == Min(3, |Select(db, WithinRange(snack, 50))|)
    ensures |r.breakfastHealthier| <= 2 && |r.lunchHighProtein| <= 2 && |r.dinnerLowCarb| <= 2
    ensures AllMatch(r.breakfastAlternatives, db, WithinRange(breakfast, 50))
    ensures AllMatch(r.lunchAlternatives, db, WithinRange(lunch, 50))
    ensures AllMatch(r.dinnerAlternatives, db, WithinRange(dinner, 50))
    ensures AllMatch(r.snackAlternatives, db, WithinRange(snack, 50))
    ensures AllMatch(r.breakfastHealthier, db, Healthier(breakfast))
    ensures AllMatch(r.lunchHighProtein, db, ProteinRich(lunch))
    ensures AllMatch(r.dinnerLowCarb, db, LowCarb(dinner))
  {
    DailySuggestions(
      AlternativeMeals(db, breakfast, 50, 3, shuffles[0]),
      HealthierAlternatives(db, breakfast, 2),
      AlternativeMeals(db, lunch, 50, 3, shuffles[1]),
      ProteinBoostedMeals(db, lunch, 2),
      AlternativeMeals(db, dinner, 50, 3, shuffles[2]),
      LowCarbMeals(db, dinner, 2),
      AlternativeMeals(db, snack, 50, 3, shuffles[3]))
  }
}
