# Diet planner core, modelled in Dafny

This project models the core of a small diet-planning web application. It has five parts:

- **Food catalog** (`FoodData`): 59 records, each with calories, protein, carbohydrate, fat, a category and a healthy flag. Two helpers read it directly:
  - `get_diet_plan` fills breakfast, lunch, dinner and snacks with the record whose calories are nearest to 20%, 35%, 35% and 10% of a daily target;
  - `get_healthy_suggestion` picks one healthy record.
- **Meal-suggestion engine** (`MealSuggestions`): filters over the catalog. These are alternatives within a calorie window, healthier options, same-category meals, protein-boosted and low-carb options, name search, calorie and protein ranges, main-and-side combos, and a day's bundle of suggestions.
- **Plan customizer** (`Customizer`): a preferences dictionary changed by validated setters. A catalog filter is driven by those preferences: category, excluded names, and the vegetarian and vegan rules. A plan generator picks a macro split, works out gram targets, and fills the meal slots in order without reusing a food.
- **User store** (`DataStore`): accounts keyed by username, plus the logged-in user. It supports sign-up, log-in, log-out, profile replacement and merging of diet preferences.
- **Weekly workout plan** (`WorkoutData`): seven workout descriptions chosen by activity level. Case is ignored, and the plan falls back to sedentary and to moderate where the source does.

`Text` holds the two string operations the source relies on: `str.lower()` and Python's substring `in`. `Wrappers` holds `Option` and `Result`.

Representation choices:

- **Units.** Macros are integer tenths of a gram, because the catalog holds values such as 12.5 g. The protein threshold of 20 g is 200, the carbohydrate threshold of 15 g is 150, and the default protein ceiling of 100 g is 1000. Calories are whole numbers, as in the catalog.
- **Python behaviour modelled exactly:**
  - list slicing `[:limit]`, including a negative limit;
  - the stable `list.sort` and `sorted`;
  - `min`, which returns the first minimum;
  - `int()`, which truncates toward zero;
  - `dict.update`, which is a right-biased map union.
- **Randomness.** `random.shuffle` and `random.choice` are not modelled as random draws. The caller passes the shuffled list, which must be a rearrangement of the matching records, or a pick index.
- **The catalog as a parameter.** The catalog is the constant `FoodData.Catalog`. Every operation takes the list as a parameter `db`, so its properties hold for any list and, in particular, for the catalog.

## Model

| member | source | states |
|---|---|---|
| FoodData.Nearest | diet_planner/food_data.py:110-113 | The returned index holds a record no farther from the target than any other, and strictly nearer than every earlier one. So it is the record `sorted(..., key=gap)[0]` and `min` pick on a tie. |
| FoodData.FindFood | diet_planner/food_data.py:110-113 | `find_food` returns None exactly when the list is empty. Otherwise it returns the nearest record to the slot's share of the target, with the first on a tie. |
| FoodData.GetDietPlan | diet_planner/food_data.py:92-139 | Each of the four slots holds the nearest record to 20/35/35/10% of the target, or nothing when the catalog is empty. Lunch and dinner always get the same record. The total is the calories of everything placed. |
| FoodData.SumCaloriesAppend | diet_planner/food_data.py:118-137 | The running calorie total of the plan adds up slot by slot. |
| FoodData.HealthyFoods | diet_planner/food_data.py:89 | The comprehension keeps exactly the healthy records of the list. |
| FoodData.HealthySuggestion | diet_planner/food_data.py:87-90 | The result is None exactly when no record is healthy. Otherwise it is a healthy record of the list. |
| CatalogFacts.CatalogNamesDistinct | diet_planner/food_data.py:4-85 | No two catalog records share a name. |
| CatalogFacts.CatalogNonNegative | diet_planner/food_data.py:4-85 | The catalog has 59 records and no negative calorie or macro value. |
| CatalogFacts.CatalogIsFlattened | diet_planner/food_data.py:4-85 | The catalog is its eleven commented sections laid end to end, in listing order. |
| Text.Lower | diet_planner/meal_suggestions.py:165 | `lower()` keeps the length, lowers each character, and leaves no upper-case letter. |
| Text.LowerIdempotent | diet_planner/workout_data.py:7 | Lower-casing twice is lower-casing once. |
| Text.ContainsIffOccurs | diet_planner/meal_suggestions.py:168 | `needle in hay` holds exactly when the needle occurs at some position of the haystack. |
| MealSuggestions.SelectMembers | diet_planner/meal_suggestions.py:32-36 | A list comprehension keeps exactly the records of the list that meet its condition. |
| MealSuggestions.SelectAppend | diet_planner/meal_suggestions.py:32-36 | The comprehension keeps list order: filtering two lists laid end to end filters each in turn. |
| MealSuggestions.InsertPermutes | diet_planner/meal_suggestions.py:55 | Inserting a record into the sorted list adds it and keeps every other record. |
| MealSuggestions.InsertSorted | diet_planner/meal_suggestions.py:55 | Inserting into a sorted list keeps it sorted. |
| MealSuggestions.SortBy | diet_planner/meal_suggestions.py:55 | `list.sort(key=...)` returns a permutation of its input sorted by the key. |
| MealSuggestions.InsertWithKey | diet_planner/meal_suggestions.py:85 | Insertion puts a record first among the records of equal key. |
| MealSuggestions.SortByStable | diet_planner/meal_suggestions.py:85 | The sort is stable: records of equal key keep their input order. This is why `reverse=True` equals an ascending sort on the negated protein. |
| MealSuggestions.Slice | diet_planner/meal_suggestions.py:40 | `s[:limit]` is a prefix. It holds `min(limit, len)` records for a non-negative limit, and `len + limit` (at least 0) for a negative one. |
| MealSuggestions.SortedCut | diet_planner/meal_suggestions.py:56 | A prefix of a sorted list ranks every kept record no worse than every dropped one. |
| MealSuggestions.RankedBest | diet_planner/meal_suggestions.py:55-56 | Sort-then-slice returns a sorted sub-multiset of the input, as long as the limit allows, and no dropped record ranks strictly better than a kept one. |
| MealSuggestions.WithKeyAppend | diet_planner/meal_suggestions.py:55 | The records of one key in two lists laid end to end are those of the first list, then those of the second. |
| MealSuggestions.RankedKeepsTies | diet_planner/meal_suggestions.py:55-56 | After sort-then-slice, the kept records of each key are a prefix of that key's records in the input, so ties keep catalog order. |
| MealSuggestions.RankedQueryMembers | diet_planner/meal_suggestions.py:47-56 | A filtered, sorted and sliced query returns only records of the list that pass the filter. |
| MealSuggestions.RankedQuery | diet_planner/meal_suggestions.py:47-56 | The result of a filtered, sorted and sliced query is a sub-multiset of the matches. It is sorted and as long as the limit allows. No dropped match ranks better than a kept one, and ties keep catalog order. |
| MealSuggestions.AlternativeMeals | diet_planner/meal_suggestions.py:16-40 | Each alternative passes the filter: it lies within `calorie_range` of the meal's calories and is not the meal itself. A meal without calories counts as 200. No record appears more often than it matches, and as many are returned as the limit allows. |
| MealSuggestions.HealthierAlternatives | diet_planner/meal_suggestions.py:42-56 | Each result is a catalog record that is healthy, within 80 calories of the meal and not the meal. |
| MealSuggestions.HealthierAlternativesRanked | diet_planner/meal_suggestions.py:42-56 | The results are a sub-multiset of the healthy matches, nearest in calories first, as many as allowed. No omitted match is nearer than a returned one, and equally near matches keep catalog order. |
| MealSuggestions.SimilarCategoryMeals | diet_planner/meal_suggestions.py:58-71 | Each result is a catalog record of the meal's category (default "Breakfast") and is not the meal. |
| MealSuggestions.SimilarCategoryMealsRanked | diet_planner/meal_suggestions.py:58-71 | The results are a sub-multiset of the same-category matches, nearest in calories first, as many as allowed. They are the nearest ones, and equally near matches keep catalog order. |
| MealSuggestions.ProteinBoostedMeals | diet_planner/meal_suggestions.py:73-86 | Each result is a catalog record with at least 20 g of protein, within 100 calories of the meal and not the meal. |
| MealSuggestions.ProteinBoostedMealsRanked | diet_planner/meal_suggestions.py:73-86 | The results are a sub-multiset of the matches, most protein first, as many as allowed. They have the most protein, and matches with equal protein keep catalog order. |
| MealSuggestions.LowCarbMeals | diet_planner/meal_suggestions.py:88-100 | Each result is a catalog record with at most 15 g of carbohydrate, within 100 calories of the meal and not the meal. |
| MealSuggestions.LowCarbMealsRanked | diet_planner/meal_suggestions.py:88-100 | The results are a sub-multiset of the matches, fewest carbohydrates first, as many as allowed. They have the fewest carbohydrates, and matches with equal carbohydrates keep catalog order. |
| MealSuggestions.SearchMeals | diet_planner/meal_suggestions.py:163-170 | Each result's lower-cased name contains the lower-cased query. The results are the first matches in catalog order, as many as the limit allows. |
| MealSuggestions.SearchIgnoresCase | diet_planner/meal_suggestions.py:165 | A query and its lower-cased form find the same records. |
| MealSuggestions.MealsByCalories | diet_planner/meal_suggestions.py:172-179 | Each result has calories in `[min_cal, max_cal]`. No record appears more often than it matches, and as many are returned as the limit allows. |
| MealSuggestions.MealsByProtein | diet_planner/meal_suggestions.py:181-192 | Each result is a catalog record whose protein lies in `[min, max]`, where the maximum defaults to 100 g. |
| MealSuggestions.MealsByProteinRanked | diet_planner/meal_suggestions.py:181-192 | The results are a sub-multiset of the matches, most protein first, as many as allowed. They have the most protein, and matches with equal protein keep catalog order. |
| MealSuggestions.SidesForHas | diet_planner/meal_suggestions.py:122-132 | A main-and-side pair is offered for one main exactly when the side is among the sides and the pair's calories are strictly within 50 of the target. |
| MealSuggestions.SidesForValid | diet_planner/meal_suggestions.py:122-132 | Every combo offered for one main pairs it with a side, within 50 calories, with summed totals. |
| MealSuggestions.CombosValid | diet_planner/meal_suggestions.py:113-137 | Every combo pairs one of the first twenty records, no heavier than the target, with one of the next twenty. Its calories are within 50 of the target and its totals are summed. |
| MealSuggestions.CombosExtend | diet_planner/meal_suggestions.py:113-137 | The search only appends, so earlier combos stay at the front in order. |
| MealSuggestions.CombosComplete | diet_planner/meal_suggestions.py:134-135 | When fewer than three combos come back, the search never stopped early, so every qualifying pair is among them. |
| MealSuggestions.ComboMealSuggestions | diet_planner/meal_suggestions.py:102-137 | The nested loops compute the combo search, with a skipped main passed over before the count check. Every combo is valid, and fewer than three combos means all of them were found. |
| MealSuggestions.GetDailySuggestions | diet_planner/meal_suggestions.py:139-156 | Each list passes its own filter. The four alternative lists hold catalog records within 50 calories of their meal, other than the meal, and each holds `min(3, matches)` records. The healthier breakfasts are healthy, within 80 calories and not the breakfast. The protein-boosted lunches have at least 20 g of protein, are within 100 calories and are not the lunch. The low-carb dinners have at most 15 g of carbohydrate, are within 100 calories and are not the dinner. Each of these three lists holds at most two records. |
| Customizer.PresetsAreWhole | diet_planner/diet_plan_customizer.py:13-19 | Every macro preset's percentages add up to 100. |
| Customizer.AddTagMembers | diet_planner/diet_plan_customizer.py:53-57 | Appending unless present holds exactly the old entries and the new one. |
| Customizer.AddTagIdempotent | diet_planner/diet_plan_customizer.py:65-69 | Adding the same entry twice equals adding it once. |
| Customizer.AddTagNoDuplicates | diet_planner/diet_plan_customizer.py:76-80 | Adding never creates a duplicate entry. |
| Customizer.RemoveTagAbsent | diet_planner/diet_plan_customizer.py:59-63 | Removing an absent restriction changes nothing. |
| Customizer.RemoveTagMembers | diet_planner/diet_plan_customizer.py:59-63 | In a list without duplicates, removing an entry keeps every other entry and leaves it absent. |
| Customizer.AddThenRemove | diet_planner/diet_plan_customizer.py:53-63 | Adding then removing a restriction leaves it absent and the others as they were. |
| Customizer.VegetarianKeepsButterChicken | diet_planner/diet_plan_customizer.py:97-99 | The vegetarian rule only looks at the Protein category, so "Butter Chicken (1 cup)", filed under Indian, is kept. |
| Customizer.FilterFoodsStep | diet_planner/diet_plan_customizer.py:86-104 | Each catalog record is either appended to the filtered list or skipped. |
| Customizer.FilterFoodsMembers | diet_planner/diet_plan_customizer.py:82-106 | The filter keeps exactly the records with a preferred category, not excluded by name, and not dropped by the vegetarian or vegan rule. |
| Customizer.FilterFoodsAppend | diet_planner/diet_plan_customizer.py:86-104 | The filter keeps catalog order. |
| Customizer.OtherTagsIgnored | diet_planner/diet_plan_customizer.py:96-102 | Restriction tags other than "vegetarian" and "vegan" leave the filtered list unchanged. |
| Customizer.RestrictionsOnlyNarrow | diet_planner/diet_plan_customizer.py:96-102 | Adding a restriction can only remove records from the filtered list. |
| Customizer.CandidatesMembers | diet_planner/diet_plan_customizer.py:113 | The candidates are exactly the filtered records whose names are not excluded. |
| Customizer.FindBestFood | diet_planner/diet_plan_customizer.py:108-118 | Returns None exactly when every name is excluded. Otherwise it returns a non-excluded filtered record, nearest to the target in calories, and the first such one. |
| Customizer.AssignMealsPrefix | diet_planner/diet_plan_customizer.py:165-174 | Later slots never change earlier ones: the first `i` slots of a plan are the plan for the first `i` keys. |
| Customizer.AssignMealsSlot | diet_planner/diet_plan_customizer.py:165-174 | Slot `i` holds the nearest filtered record whose name no earlier slot used, or None. |
| Customizer.AssignMealsSlots | diet_planner/diet_plan_customizer.py:165-174 | Every distribution key gets an entry, in order, and each entry holds the nearest unused filtered record, or None. |
| Customizer.AssignMealsNoRepeats | diet_planner/diet_plan_customizer.py:163-172 | No food name fills two slots of a generated plan. |
| Customizer.AssignMealsNoneStays | diet_planner/diet_plan_customizer.py:167-174 | Once a slot finds nothing left, every later slot is empty too. |
| Customizer.AssignMealsFromFiltered | diet_planner/diet_plan_customizer.py:167-170 | Every filled slot holds a record of the filtered list. |
| Customizer.FindBestFoodFinds | diet_planner/diet_plan_customizer.py:113-117 | A pick succeeds while fewer distinct names are used than the filtered list holds. |
| Customizer.AssignMealsFillsAll | diet_planner/diet_plan_customizer.py:163-174 | With at least as many differently named filtered records as slots, every slot is filled. |
| Customizer.FilterFoodsDistinct | diet_planner/diet_plan_customizer.py:82-106 | Filtering a list of differently named records gives a list of differently named records. |
| Customizer.CatalogSlotsFilled | diet_planner/diet_plan_customizer.py:82-174 | On the catalog, every slot is filled once the preferences keep at least as many records as there are slots. |
| Customizer.TargetsFit | diet_planner/diet_plan_customizer.py:146-150 | Each gram target is the largest whole number of grams, at 4, 4 and 9 calories per gram, whose calories fit the macro's share of the day. |
| Customizer.GetKeys | diet_planner/diet_plan_customizer.py:22-30 | The preferences dictionary has exactly its seven keys. |
| Customizer.SetUnknownIgnored | diet_planner/diet_plan_customizer.py:185-186 | An update for a key the dictionary lacks is ignored. |
| Customizer.SetStores | diet_planner/diet_plan_customizer.py:186 | An update stores its value under its key. |
| Customizer.SetLeavesOthers | diet_planner/diet_plan_customizer.py:186 | An update leaves every other key as it was. |
| Customizer.ApplyUpdatesLeavesOthers | diet_planner/diet_plan_customizer.py:182-187 | A key that no update names keeps its value. |
| Customizer.FillSlots | diet_planner/diet_plan_customizer.py:163-174 | The slot loop computes the slot assignment, and the running total is the calories of the filled slots. |
| Customizer.DietPlanCustomizer.constructor | diet_planner/diet_plan_customizer.py:21-30 | The initial preferences are the balanced preset, no custom split, no restrictions, allergies or exclusions, the six default categories and four meals. |
| Customizer.DietPlanCustomizer.SetMacroPreset | diet_planner/diet_plan_customizer.py:32-38 | A known preset is stored and clears the custom split. An unknown one is refused with no change. |
| Customizer.DietPlanCustomizer.SetCustomMacros | diet_planner/diet_plan_customizer.py:40-51 | A split is stored exactly when it adds up to 100. Otherwise nothing changes. |
| Customizer.DietPlanCustomizer.AddDietaryRestriction | diet_planner/diet_plan_customizer.py:53-57 | Appends unless present, always succeeds, and keeps a duplicate-free list duplicate-free. |
| Customizer.DietPlanCustomizer.RemoveDietaryRestriction | diet_planner/diet_plan_customizer.py:59-63 | Removes the first occurrence, always succeeds, and changes nothing for an absent tag. |
| Customizer.DietPlanCustomizer.AddAllergy | diet_planner/diet_plan_customizer.py:65-69 | Appends unless present, always succeeds, and keeps a duplicate-free list duplicate-free. |
| Customizer.DietPlanCustomizer.SetPreferredCuisines | diet_planner/diet_plan_customizer.py:71-74 | Replaces the category list and always succeeds. |
| Customizer.DietPlanCustomizer.ExcludeFood | diet_planner/diet_plan_customizer.py:76-80 | Appends unless present, always succeeds, and keeps a duplicate-free list duplicate-free. |
| Customizer.DietPlanCustomizer.GetFilteredFoods | diet_planner/diet_plan_customizer.py:82-106 | The loop with its `continue`s computes the preference filter. |
| Customizer.DietPlanCustomizer.GeneratePlan | diet_planner/diet_plan_customizer.py:120-176 | Fails (KeyError) exactly when no custom split is set and the preset is unknown. Otherwise the split is the custom one or the preset's, the macros are its gram targets, the slots are the no-reuse assignment over the filtered catalog, and the total is their calories. |
| Customizer.DietPlanCustomizer.UpdatePreferences | diet_planner/diet_plan_customizer.py:182-187 | Applies the updates in order, overwriting only existing keys, and always succeeds. |
| DataStore.MergeOverwrites | diet_planner/data_store.py:59 | `dict.update` overwrites exactly the given keys, adds new ones and keeps the rest. |
| DataStore.MergeIdempotent | diet_planner/data_store.py:59 | Applying the same preference update twice equals applying it once. |
| DataStore.UserManager.constructor | diet_planner/data_store.py:4-7 | A new store has no users and nobody logged in. |
| DataStore.UserManager.CreateUser | diet_planner/data_store.py:9-33 | A taken name is refused with no change. Otherwise only the new record is added, with the default settings and preferences, and it can log in with its password. |
| DataStore.UserManager.VerifyUser | diet_planner/data_store.py:35-40 | Succeeds exactly when the user exists and the password matches, and only then changes the session. The logged-in user's data becomes the default lookup. |
| DataStore.UserManager.GetUserData | diet_planner/data_store.py:42-44 | A missing or empty name falls back to the logged-in user. The result is that user's record, or None when there is no such user. |
| DataStore.UserManager.Logout | diet_planner/data_store.py:46-47 | Ends the session and keeps the accounts. The default lookup then finds nothing. |
| DataStore.UserManager.UpdateProfile | diet_planner/data_store.py:50-54 | A known user's profile is replaced wholesale and nothing else changes. An unknown user is refused. |
| DataStore.UserManager.UpdateDietPreferences | diet_planner/data_store.py:56-61 | A known user's preferences are merged with the update, and each given key then reads back its new value. An unknown user is refused with no change. |
| DataStore.UserManager.GetDietPreferences | diet_planner/data_store.py:63-68 | Returns the named (or logged-in) user's preferences, or None for an unknown user. |
| WorkoutData.LevelFor | diet_planner/workout_data.py:59 | A dictionary hit returns the level stored under exactly that key. |
| WorkoutData.LevelForKey | diet_planner/workout_data.py:10-56 | Every one of the five levels has an entry under its key. |
| WorkoutData.Resolve | diet_planner/workout_data.py:7-59 | The chosen plan is moderate, or the level whose key is the normalised input. |
| WorkoutData.ResolveKey | diet_planner/workout_data.py:7-59 | A normalised input equal to some level's key resolves to that level. |
| WorkoutData.WeeklyWorkoutPlan | diet_planner/workout_data.py:1-59 | Returns the plan stored under the normalised level when that is one of the five keys, and the moderate plan otherwise. |
| WorkoutData.AsDays | diet_planner/workout_data.py:11-19 | A plan has seven entries, keyed Sunday to Saturday in order. |
| WorkoutData.KnownLevel | diet_planner/workout_data.py:10-59 | Asking by a level's own key returns that level's plan. |
| WorkoutData.AbsentIsSedentary | diet_planner/workout_data.py:7 | A missing or empty level gives the sedentary plan. |
| WorkoutData.CaseInsensitive | diet_planner/workout_data.py:7 | A level and its lower-cased form give the same plan. |
| WorkoutData.UnknownIsModerate | diet_planner/workout_data.py:58-59 | A non-empty level whose lower-cased form is not a key gives the moderate plan. |

## Left out

- **Floating point.** Every float in the source is modelled with whole numbers:
  - macro shares are integer percentages;
  - `meal_distribution` percentages become whole-calorie slot targets;
  - the default distribution is `int(daily * 0.25)` and so on, computed by truncating division;
  - the targets of `get_diet_plan` are compared as `|100 * c - T * p|`.
  Float rounding (for example `0.35 * x` landing just below a whole number) is not modelled.
- Customizer.DietPlanCustomizer.SetCustomMacros: stores the whole percentages. The source stores `pct / 100` as floats. The two agree up to scaling, except for float rounding.
- Customizer.DietPlanCustomizer.GeneratePlan: the `macro_split` display strings (`f"{int(v*100)}%"`) are not produced. `GeneratePlan` returns the split itself.
- **Unused inputs.** The `macro_target` parameter of `get_combo_meal_suggestions` and the `tdee` parameter of `get_daily_suggestions` are never read by the source, so the model omits them.
- **Randomness.** `random.shuffle` and `random.choice` are replaced by a caller-supplied rearrangement or a pick index.
- **Duplicated helper.** `get_random_healthy_meal` (meal_suggestions.py:158-161) is the same computation as `get_healthy_suggestion` and is modelled once, as `FoodData.HealthySuggestion`.
- **Time.** `created_at = datetime.now()` in `create_user` is not stored, because clocks are not modelled.
- **Strings.** `str.lower()` is modelled for ASCII letters only. Unicode case mapping is out of scope.
- Customizer.DietPlanCustomizer.UpdatePreferences: an update whose value does not have the shape of the key's value is ignored. Python would store a value of any type.
- Customizer.FindBestFood: an `exclude_list` of None is the empty list. The model takes the list itself.
- Customizer.DietPlanCustomizer.GeneratePlan: requires distinct slot names, because a dictionary's keys always are.
- **Vegetarian rule.** The vegetarian restriction (diet_plan_customizer.py:97-99) drops only Protein-category items. "Butter Chicken (1 cup)" is filed under Indian, so it is kept. `Customizer.VegetarianKeepsButterChicken` records this.
- **Getters.** `get_preferences` (diet_plan_customizer.py:178-180) only returns the preferences object. The model reads the `prefs` field directly.
- **Dictionary order.** Preference merging is modelled on `map`. Python dictionaries also keep insertion order, which the model does not represent.
- **Profile values.** Profile and preference values are a small `Value` datatype: text, whole numbers, text lists, and tables of whole numbers. Other Python value types are not represented.
- DataStore.UserManager.GetUserData: returns the stored record by value. The source returns the live dictionary (data_store.py:44), and callers append to its logs through it (main/routes.py:126, 170, 179). The model has value semantics, so that aliasing is not captured.
- DataStore.UserManager.GetDietPreferences: returns the preferences by value. The source returns the stored dictionary (data_store.py:67), and a caller mutates its restriction list in place before writing it back (customization/routes.py:177-182). The model has value semantics.
- DataStore.UserManager.UpdateProfile: stores a copy of the profile. The source stores the caller's dictionary itself (data_store.py:52), so later changes to it would show through. Aliasing is not modelled.
- Customizer.DietPlanCustomizer.SetPreferredCuisines: stores the category list as a value. The source keeps the caller's list (diet_plan_customizer.py:73). Aliasing is not modelled.
- **Default arguments.** Dafny has no default parameters, so callers pass every argument. The source's defaults are `limit=5` for alternatives, search, calories and protein, `limit=3` for healthier, protein-boosted and low-carb meals, `limit=4` for similar meals, and `calorie_range=50`. `MealSuggestions.MaxProtein` models the `max_protein=None` default of 100 g. `MealSuggestions.GetDailySuggestions` passes the source's own arguments: 50, 3 and 2.
- **Web layer.** The Flask routes, templates and the global instances (`meal_suggestions`, `plan_customizer`, `user_manager`) are not part of this model.
