/**
 * scripts/add-fishoil.js: add the single 鱼油 category under 食品饮料 /
 * 保健品 unless a category of that name is already stored.
 */
module AddFishOil {
  import opened Wrappers
  import opened Slugs
  import opened CategoryModel
  import opened AddMoreCategories
  import opened ExpandSlots

  const FoodLevel1Name: string := "食品饮料"
  const FishOilName: string := "鱼油"
  const SupplementLevel2Name: string := "保健品"

  /** The level 1 used when no stored category has the 食品饮料 level 1. */
  const FallbackFoodLevel1: Level1 := Level1("食品饮料", "food-beverage", "fa-utensils", Both)

  /** The level 1 of the first stored 食品饮料 category, or the fallback. */
  function FoodLevel1(cats: seq<Category>): (l1: Level1)
    ensures l1.name == FoodLevel1Name
    ensures FirstWithLevel1(cats, FoodLevel1Name).None? ==> l1 == FallbackFoodLevel1
  {
    match FirstWithLevel1(cats, FoodLevel1Name)
    case None => FallbackFoodLevel1
    case Some(sample) => sample.level1
  }

  const FishOilDimensions: seq<Dimension> := [
    Dimension("质量最好", 10), Dimension("纯度最高", 10), Dimension("吸收最好", 9),
    Dimension("性价比最高", 8), Dimension("品牌最好", 7)]

  /** The one document the script creates. */
  function FishOilCategory(l1: Level1): (c: Category)
    ensures c.level1 == l1 && c.level3.name == FishOilName
    ensures c.level3.slug == ItemSlug(l1.slug, SupplementLevel2Name, FishOilName)
    ensures c.level3.dimensions == FishOilDimensions && c.level3.priceRanges == HealthBands
  {
    var level2Slug := GenerateSlug(SupplementLevel2Name);
    Category(l1, Level2(SupplementLevel2Name, level2Slug, "fa-pills"),
             Level3(FishOilName, l1.slug + "-" + level2Slug + "-" + GenerateSlug(FishOilName), FishOilDimensions, HealthBands))
  }

  lemma FishOilTables()
    ensures |FishOilDimensions| == 5 && DistinctNames(FishOilDimensions)
    ensures ContiguousBands(HealthBands)
  {
  }

  /** `addFishOil`: nothing happens when 鱼油 is stored; otherwise one `create`, whose refusal ends the script. */
  function AddFishOilRun(cats: seq<Category>): seq<Category> {
    if FishOilName in Level3Names(cats) then cats
    else AfterCreate(cats, FishOilCategory(FoodLevel1(cats)))
  }

  /**
   * The script writes at most one document, keeps the indexes unique, and
   * leaves 鱼油 either stored or refused by `create`.
   */
  lemma AddFishOilEffect(cats: seq<Category>)
    requires UniqueLevel3(cats)
    ensures var r := AddFishOilRun(cats);
      && UniqueLevel3(r)
      && (r == cats || r == cats + [FishOilCategory(FoodLevel1(cats))])
      && (FishOilName in Level3Names(r) || CreateOutcomeOf(r, FishOilCategory(FoodLevel1(cats))) != Created)
      && (FishOilName in Level3Names(cats) ==> r == cats)
  {
    var c := FishOilCategory(FoodLevel1(cats));
    if FishOilName !in Level3Names(cats) {
      CreatePreservesUnique(cats, c);
      if CreateOutcomeOf(cats, c) == Created {
        Level3NamesPush(cats, c);
      }
    }
  }

  /** Running the script twice is the same as running it once. */
  lemma AddFishOilIdempotent(cats: seq<Category>)
    requires UniqueLevel3(cats)
    ensures AddFishOilRun(AddFishOilRun(cats)) == AddFishOilRun(cats)
  {
    AddFishOilEffect(cats);
  }

  /** A stored 鱼油 document has five dimensions and four bands: twenty answer slots while no answer exists. */
  lemma FishOilSlots(l1: Level1, id: nat)
    ensures var c := FishOilCategory(l1);
      |CategorySlots(c, id, c.level3.dimensions, {})| == 20
  {
    var c := FishOilCategory(l1);
    CategorySlotsAllMissing(c, id, c.level3.dimensions);
  }

  /** `addFishOil` on the store: `created` tells whether the document was written. */
  method AddFishOilScript(store: CategoryStore) returns (created: bool)
    requires store.Valid()
    modifies store
    ensures store.Valid()
    ensures store.cats == AddFishOilRun(old(store.cats))
    ensures created <==> |store.cats| == |old(store.cats)| + 1
  {
    var sample := FirstWithLevel1(store.cats, FoodLevel1Name);
    var level1 := if sample.None? then FallbackFoodLevel1 else sample.value.level1;
    var fishOilExists := store.HasLevel3Name(FishOilName);
    created := false;
    if !fishOilExists {
      var outcome := store.Create(FishOilCategory(level1));
      created := outcome == Created;
    }
  }
}
