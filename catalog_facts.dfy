/**
 * Proof that the catalog's 59 names are pairwise distinct and that no amount in
 * it is negative. A single quantified
 * statement over the whole catalog is beyond the solver's budget, so the catalog
 * is taken section by section (the sections of food_data.py's listing): each
 * section's names are distinct, and each pair of sections shares no name.
 */
module CatalogFacts {
  import opened FoodData

  /** The catalog's sections, in listing order. */
  const Sections: seq<seq<FoodItem>> := [
    IndianMains,
    BreadsAndGrains,
    Proteins,
    Eggs,
    SouthIndian,
    BreakfastItems,
    Fruits,
    Vegetables,
    DairyItems,
    Snacks,
    Beverages
  ]

  /** The sections laid end to end, first section first. */
  function Flatten(ss: seq<seq<FoodItem>>): seq<FoodItem>
  {
    if ss == [] then [] else Flatten(ss[..|ss| - 1]) + ss[|ss| - 1]
  }

  lemma DistinctConcat(a: seq<FoodItem>, b: seq<FoodItem>)
    requires DistinctNames(a) && DistinctNames(b) && NamesDisjoint(a, b)
    ensures DistinctNames(a + b)
  {
    forall i, j | 0 <= i < j < |a + b| ensures (a + b)[i].name != (a + b)[j].name {
      if j < |a| {
        assert (a + b)[i] == a[i] && (a + b)[j] == a[j];
      } else if i < |a| {
        assert (a + b)[i] == a[i] && (a + b)[j] == b[j - |a|];
      } else {
        assert (a + b)[i] == b[i - |a|] && (a + b)[j] == b[j - |a|];
      }
    }
  }

  /** A section that shares no name with any of `ss` shares none with their concatenation. */
  lemma {:induction false} FlattenDisjoint(ss: seq<seq<FoodItem>>, b: seq<FoodItem>)
    requires forall j :: 0 <= j < |ss| ==> NamesDisjoint(ss[j], b)
    ensures NamesDisjoint(Flatten(ss), b)
  {
    if ss != [] {
      var init, last := ss[..|ss| - 1], ss[|ss| - 1];
      assert forall j :: 0 <= j < |init| ==> init[j] == ss[j];
      FlattenDisjoint(init, b);
      var a: seq<FoodItem> := Flatten(init);
      forall i, j | 0 <= i < |a + last| && 0 <= j < |b| ensures (a + last)[i].name != b[j].name {
        if i < |a| {
          assert (a + last)[i] == a[i];
        } else {
          assert (a + last)[i] == last[i - |a|];
        }
      }
    }
  }

  lemma {:induction false} FlattenNonNegative(ss: seq<seq<FoodItem>>)
    requires forall k :: 0 <= k < |ss| ==> AllNonNegative(ss[k])
    ensures AllNonNegative(Flatten(ss))
  {
    if ss != [] {
      var init, last := ss[..|ss| - 1], ss[|ss| - 1];
      assert forall j :: 0 <= j < |init| ==> init[j] == ss[j];
      FlattenNonNegative(init);
      var a: seq<FoodItem> := Flatten(init);
      assert forall i :: 0 <= i < |a + last| ==> (a + last)[i] == if i < |a| then a[i] else last[i - |a|];
    }
  }

  /** Sections with distinct names, pairwise apart, concatenate to a list with distinct names. */
  lemma {:induction false} FlattenDistinct(ss: seq<seq<FoodItem>>)
    requires forall k :: 0 <= k < |ss| ==> DistinctNames(ss[k])
    requires forall j, k :: 0 <= j < k < |ss| ==> NamesDisjoint(ss[j], ss[k])
    ensures DistinctNames(Flatten(ss))
  {
    if ss != [] {
      var init, last := ss[..|ss| - 1], ss[|ss| - 1];
      assert forall j :: 0 <= j < |init| ==> init[j] == ss[j];
      FlattenDistinct(init);
      FlattenDisjoint(init, last);
      DistinctConcat(Flatten(init), last);
    }
  }

  lemma IndianMainsWellFormed() ensures DistinctNames(IndianMains) && AllNonNegative(IndianMains) {}
  lemma BreadsAndGrainsWellFormed() ensures DistinctNames(BreadsAndGrains) && AllNonNegative(BreadsAndGrains) {}
  lemma ProteinsWellFormed() ensures DistinctNames(Proteins) && AllNonNegative(Proteins) {}
  lemma EggsWellFormed() ensures DistinctNames(Eggs) && AllNonNegative(Eggs) {}
  lemma SouthIndianWellFormed() ensures DistinctNames(SouthIndian) && AllNonNegative(SouthIndian) {}
  lemma BreakfastItemsWellFormed() ensures DistinctNames(BreakfastItems) && AllNonNegative(BreakfastItems) {}
  lemma FruitsWellFormed() ensures DistinctNames(Fruits) && AllNonNegative(Fruits) {}
  lemma VegetablesWellFormed() ensures DistinctNames(Vegetables) && AllNonNegative(Vegetables) {}
  lemma DairyItemsWellFormed() ensures DistinctNames(DairyItems) && AllNonNegative(DairyItems) {}
  lemma SnacksWellFormed() ensures DistinctNames(Snacks) && AllNonNegative(Snacks) {}
  lemma BeveragesWellFormed() ensures DistinctNames(Beverages) && AllNonNegative(Beverages) {}

  lemma BreadsAndGrainsApartFromIndianMains() ensures NamesDisjoint(IndianMains, BreadsAndGrains) {}
  lemma ProteinsApartFromIndianMains() ensures NamesDisjoint(IndianMains, Proteins) {}
  lemma ProteinsApartFromBreadsAndGrains() ensures NamesDisjoint(BreadsAndGrains, Proteins) {}
  lemma EggsApartFromIndianMains() ensures NamesDisjoint(IndianMains, Eggs) {}
  lemma EggsApartFromBreadsAndGrains() ensures NamesDisjoint(BreadsAndGrains, Eggs) {}
  lemma EggsApartFromProteins() ensures NamesDisjoint(Proteins, Eggs) {}
  lemma SouthIndianApartFromIndianMains() ensures NamesDisjoint(IndianMains, SouthIndian) {}
  lemma SouthIndianApartFromBreadsAndGrains() ensures NamesDisjoint(BreadsAndGrains, SouthIndian) {}
  lemma SouthIndianApartFromProteins() ensures NamesDisjoint(Proteins, SouthIndian) {}
  lemma SouthIndianApartFromEggs() ensures NamesDisjoint(Eggs, SouthIndian) {}
  lemma BreakfastItemsApartFromIndianMains() ensures NamesDisjoint(IndianMains, BreakfastItems) {}
  lemma BreakfastItemsApartFromBreadsAndGrains() ensures NamesDisjoint(BreadsAndGrains, BreakfastItems) {}
  lemma BreakfastItemsApartFromProteins() ensures NamesDisjoint(Proteins, BreakfastItems) {}
  lemma BreakfastItemsApartFromEggs() ensures NamesDisjoint(Eggs, BreakfastItems) {}
  lemma BreakfastItemsApartFromSouthIndian() ensures NamesDisjoint(SouthIndian, BreakfastItems) {}
  lemma FruitsApartFromIndianMains() ensures NamesDisjoint(IndianMains, Fruits) {}
  lemma FruitsApartFromBreadsAndGrains() ensures NamesDisjoint(BreadsAndGrains, Fruits) {}
  lemma FruitsApartFromProteins() ensures NamesDisjoint(Proteins, Fruits) {}
  lemma FruitsApartFromEggs() ensures NamesDisjoint(Eggs, Fruits) {}
  lemma FruitsApartFromSouthIndian() ensures NamesDisjoint(SouthIndian, Fruits) {}
  lemma FruitsApartFromBreakfastItems() ensures NamesDisjoint(BreakfastItems, Fruits) {}
  lemma VegetablesApartFromIndianMains() ensures NamesDisjoint(IndianMains, Vegetables) {}
  lemma VegetablesApartFromBreadsAndGrains() ensures NamesDisjoint(BreadsAndGrains, Vegetables) {}
  lemma VegetablesApartFromProteins() ensures NamesDisjoint(Proteins, Vegetables) {}
  lemma VegetablesApartFromEggs() ensures NamesDisjoint(Eggs, Vegetables) {}
  lemma VegetablesApartFromSouthIndian() ensures NamesDisjoint(SouthIndian, Vegetables) {}
  lemma VegetablesApartFromBreakfastItems() ensures NamesDisjoint(BreakfastItems, Vegetables) {}
  lemma VegetablesApartFromFruits() ensures NamesDisjoint(Fruits, Vegetables) {}
  lemma DairyItemsApartFromIndianMains() ensures NamesDisjoint(IndianMains, DairyItems) {}
  lemma DairyItemsApartFromBreadsAndGrains() ensures NamesDisjoint(BreadsAndGrains, DairyItems) {}
  lemma DairyItemsApartFromProteins() ensures NamesDisjoint(Proteins, DairyItems) {}
  lemma DairyItemsApartFromEggs() ensures NamesDisjoint(Eggs, DairyItems) {}
  lemma DairyItemsApartFromSouthIndian() ensures NamesDisjoint(SouthIndian, DairyItems) {}
  lemma DairyItemsApartFromBreakfastItems() ensures NamesDisjoint(BreakfastItems, DairyItems) {}
  lemma DairyItemsApartFromFruits() ensures NamesDisjoint(Fruits, DairyItems) {}
  lemma DairyItemsApartFromVegetables() ensures NamesDisjoint(Vegetables, DairyItems) {}
  lemma SnacksApartFromIndianMains() ensures NamesDisjoint(IndianMains, Snacks) {}
  lemma SnacksApartFromBreadsAndGrains() ensures NamesDisjoint(BreadsAndGrains, Snacks) {}
  lemma SnacksApartFromProteins() ensures NamesDisjoint(Proteins, Snacks) {}
  lemma SnacksApartFromEggs() ensures NamesDisjoint(Eggs, Snacks) {}
  lemma SnacksApartFromSouthIndian() ensures NamesDisjoint(SouthIndian, Snacks) {}
  lemma SnacksApartFromBreakfastItems() ensures NamesDisjoint(BreakfastItems, Snacks) {}
  lemma SnacksApartFromFruits() ensures NamesDisjoint(Fruits, Snacks) {}
  lemma SnacksApartFromVegetables() ensures NamesDisjoint(Vegetables, Snacks) {}
  lemma SnacksApartFromDairyItems() ensures NamesDisjoint(DairyItems, Snacks) {}
  lemma BeveragesApartFromIndianMains() ensures NamesDisjoint(IndianMains, Beverages) {}
  lemma BeveragesApartFromBreadsAndGrains() ensures NamesDisjoint(BreadsAndGrains, Beverages) {}
  lemma BeveragesApartFromProteins() ensures NamesDisjoint(Proteins, Beverages) {}
  lemma BeveragesApartFromEggs() ensures NamesDisjoint(Eggs, Beverages) {}
  lemma BeveragesApartFromSouthIndian() ensures NamesDisjoint(SouthIndian, Beverages) {}
  lemma BeveragesApartFromBreakfastItems() ensures NamesDisjoint(BreakfastItems, Beverages) {}
  lemma BeveragesApartFromFruits() ensures NamesDisjoint(Fruits, Beverages) {}
  lemma BeveragesApartFromVegetables() ensures NamesDisjoint(Vegetables, Beverages) {}
  lemma BeveragesApartFromDairyItems() ensures NamesDisjoint(DairyItems, Beverages) {}
  lemma BeveragesApartFromSnacks() ensures NamesDisjoint(Snacks, Beverages) {}

  /** The catalog is its sections laid end to end. */
  lemma CatalogIsFlattened()
    ensures Catalog == Flatten(Sections)
  {
    assert Flatten(Sections[..1]) == IndianMains;
    assert Sections[..2][..1] == Sections[..1];
    assert Flatten(Sections[..2]) == IndianMains + BreadsAndGrains;
    assert Sections[..3][..2] == Sections[..2];
    assert Flatten(Sections[..3]) == IndianMains + BreadsAndGrains + Proteins;
    assert Sections[..4][..3] == Sections[..3];
    assert Flatten(Sections[..4]) == IndianMains + BreadsAndGrains + Proteins + Eggs;
    assert Sections[..5][..4] == Sections[..4];
    assert Flatten(Sections[..5]) == IndianMains + BreadsAndGrains + Proteins + Eggs + SouthIndian;
    assert Sections[..6][..5] == Sections[..5];
    assert Flatten(Sections[..6]) == IndianMains + BreadsAndGrains + Proteins + Eggs + SouthIndian + BreakfastItems;
    assert Sections[..7][..6] == Sections[..6];
    assert Flatten(Sections[..7]) == IndianMains + BreadsAndGrains + Proteins + Eggs + SouthIndian + BreakfastItems + Fruits;
    assert Sections[..8][..7] == Sections[..7];
    assert Flatten(Sections[..8]) == IndianMains + BreadsAndGrains + Proteins + Eggs + SouthIndian + BreakfastItems + Fruits + Vegetables;
    assert Sections[..9][..8] == Sections[..8];
    assert Flatten(Sections[..9]) == IndianMains + BreadsAndGrains + Proteins + Eggs + SouthIndian + BreakfastItems + Fruits + Vegetables + DairyItems;
    assert Sections[..10][..9] == Sections[..9];
    assert Flatten(Sections[..10]) == IndianMains + BreadsAndGrains + Proteins + Eggs + SouthIndian + BreakfastItems + Fruits + Vegetables + DairyItems + Snacks;
    assert Sections[..11][..10] == Sections[..10];
    assert Flatten(Sections[..11]) == IndianMains + BreadsAndGrains + Proteins + Eggs + SouthIndian + BreakfastItems + Fruits + Vegetables + DairyItems + Snacks + Beverages;
    assert Sections[..11] == Sections;
  }

  lemma SectionsWellFormed()
    ensures forall k :: 0 <= k < |Sections| ==> DistinctNames(Sections[k]) && AllNonNegative(Sections[k])
  {
    IndianMainsWellFormed();
    BreadsAndGrainsWellFormed();
    ProteinsWellFormed();
    EggsWellFormed();
    SouthIndianWellFormed();
    BreakfastItemsWellFormed();
    FruitsWellFormed();
    VegetablesWellFormed();
    DairyItemsWellFormed();
    SnacksWellFormed();
    BeveragesWellFormed();
  }

  lemma SectionsApart()
    ensures forall j, k :: 0 <= j < k < |Sections| ==> NamesDisjoint(Sections[j], Sections[k])
  {
    BreadsAndGrainsApartFromIndianMains();
    ProteinsApartFromIndianMains();
    ProteinsApartFromBreadsAndGrains();
    EggsApartFromIndianMains();
    EggsApartFromBreadsAndGrains();
    EggsApartFromProteins();
    SouthIndianApartFromIndianMains();
    SouthIndianApartFromBreadsAndGrains();
    SouthIndianApartFromProteins();
    SouthIndianApartFromEggs();
    BreakfastItemsApartFromIndianMains();
    BreakfastItemsApartFromBreadsAndGrains();
    BreakfastItemsApartFromProteins();
    BreakfastItemsApartFromEggs();
    BreakfastItemsApartFromSouthIndian();
    FruitsApartFromIndianMains();
    FruitsApartFromBreadsAndGrains();
    FruitsApartFromProteins();
    FruitsApartFromEggs();
    FruitsApartFromSouthIndian();
    FruitsApartFromBreakfastItems();
    VegetablesApartFromIndianMains();
    VegetablesApartFromBreadsAndGrains();
    VegetablesApartFromProteins();
    VegetablesApartFromEggs();
    VegetablesApartFromSouthIndian();
    VegetablesApartFromBreakfastItems();
    VegetablesApartFromFruits();
    DairyItemsApartFromIndianMains();
    DairyItemsApartFromBreadsAndGrains();
    DairyItemsApartFromProteins();
    DairyItemsApartFromEggs();
    DairyItemsApartFromSouthIndian();
    DairyItemsApartFromBreakfastItems();
    DairyItemsApartFromFruits();
    DairyItemsApartFromVegetables();
    SnacksApartFromIndianMains();
    SnacksApartFromBreadsAndGrains();
    SnacksApartFromProteins();
    SnacksApartFromEggs();
    SnacksApartFromSouthIndian();
    SnacksApartFromBreakfastItems();
    SnacksApartFromFruits();
    SnacksApartFromVegetables();
    SnacksApartFromDairyItems();
    BeveragesApartFromIndianMains();
    BeveragesApartFromBreadsAndGrains();
    BeveragesApartFromProteins();
    BeveragesApartFromEggs();
    BeveragesApartFromSouthIndian();
    BeveragesApartFromBreakfastItems();
    BeveragesApartFromFruits();
    BeveragesApartFromVegetables();
    BeveragesApartFromDairyItems();
    BeveragesApartFromSnacks();
  }

  /** No two records of the catalog share a name. */
  lemma CatalogNamesDistinct()
    ensures DistinctNames(Catalog)
  {
    CatalogIsFlattened();
    SectionsWellFormed();
    SectionsApart();
    FlattenDistinct(Sections);
  }

  /** The catalog has 59 records and no record has a negative amount. */
  lemma CatalogNonNegative()
    ensures |Catalog| == 59
    ensures AllNonNegative(Catalog)
  {
    CatalogIsFlattened();
    SectionsWellFormed();
    FlattenNonNegative(Sections);
  }
}
