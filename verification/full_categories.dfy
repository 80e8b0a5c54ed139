/**
 * `generateCategories` of scripts/generate-full-categories.js: every
 * (level 1, level 2, item) entry of the built-in taxonomy becomes one
 * category, with a level-3 slug made unique by a running set of used slugs
 * and with the dimension and price tables chosen from the item's name.
 *
 * The literal level-1 and level-2 tables of the script are data, not logic:
 * here they are the `groups` parameter.
 */
module FullCategories {
  import opened Text
  import opened Slugs
  import opened CategoryModel

  // ---------------------------------------------------------------------
  // generateDimensions
  // ---------------------------------------------------------------------

  /** The four dimensions every generated category ends with, in this order. */
  const CommonDimensions: seq<Dimension> :=
    [Dimension("性价比最高", 7), Dimension("品牌最好", 6), Dimension("销量最好", 5), Dimension("口碑最好", 5)]

  predicate IsComputing(item: string) {
    Includes(item, "手机") || Includes(item, "平板") || Includes(item, "电脑")
  }

  const ComputingDimensions: seq<Dimension> := [Dimension("性能最强", 10), Dimension("续航最长", 9), Dimension("拍照最好", 8)]
  const EarphoneDimensions: seq<Dimension> := [Dimension("音质最好", 10), Dimension("降噪最好", 9), Dimension("佩戴最舒适", 8)]
  const ShoeDimensions: seq<Dimension> := [Dimension("最舒适", 10), Dimension("最耐穿", 9), Dimension("最轻", 8)]
  const ClothingDimensions: seq<Dimension> := [Dimension("面料最好", 10), Dimension("最舒适", 9), Dimension("版型最好", 8)]
  const SkincareDimensions: seq<Dimension> := [Dimension("效果最好", 10), Dimension("吸收最快", 9), Dimension("最温和", 8)]
  const FoodDimensions: seq<Dimension> := [Dimension("口感最好", 10), Dimension("配料最好", 9), Dimension("包装最好", 8)]
  const AdultToyDimensions: seq<Dimension> := [Dimension("震动力度最强", 10), Dimension("静音最好", 9), Dimension("续航最长", 8)]
  const DefaultDimensions: seq<Dimension> := [Dimension("品质最好", 10), Dimension("最耐用", 9), Dimension("设计最好", 8)]

  /** The three item-specific dimensions: the first matching keyword group decides. */
  function SpecificDimensions(item: string): seq<Dimension> {
    if IsComputing(item) then ComputingDimensions
    else if Includes(item, "耳机") then EarphoneDimensions
    else if Includes(item, "鞋") then ShoeDimensions
    else if Includes(item, "T恤") || Includes(item, "衬衫") || Includes(item, "内衣") then ClothingDimensions
    else if Includes(item, "护肤") || Includes(item, "精华") || Includes(item, "面霜") then SkincareDimensions
    else if Includes(item, "食品") || Includes(item, "零食") then FoodDimensions
    else if Includes(item, "震动棒") || Includes(item, "跳蛋") then AdultToyDimensions
    else DefaultDimensions
  }

  /** Three dimensions of importance 10, 9, 8 whose names differ from each other and from the common four. */
  predicate SpecificTableOk(t: seq<Dimension>) {
    && |t| == 3
    && t[0].importance == 10 && t[1].importance == 9 && t[2].importance == 8
    && DistinctNames(t + CommonDimensions)
  }

  lemma ComputingDimensionsOk() ensures SpecificTableOk(ComputingDimensions) {}
  lemma EarphoneDimensionsOk() ensures SpecificTableOk(EarphoneDimensions) {}
  lemma ShoeDimensionsOk() ensures SpecificTableOk(ShoeDimensions) {}
  lemma ClothingDimensionsOk() ensures SpecificTableOk(ClothingDimensions) {}
  lemma SkincareDimensionsOk() ensures SpecificTableOk(SkincareDimensions) {}
  lemma FoodDimensionsOk() ensures SpecificTableOk(FoodDimensions) {}
  lemma AdultToyDimensionsOk() ensures SpecificTableOk(AdultToyDimensions) {}
  lemma DefaultDimensionsOk() ensures SpecificTableOk(DefaultDimensions) {}

  lemma SpecificDimensionsOk(item: string)
    ensures SpecificTableOk(SpecificDimensions(item))
  {
    var t := SpecificDimensions(item);
    if t == ComputingDimensions { ComputingDimensionsOk(); }
    else if t == EarphoneDimensions { EarphoneDimensionsOk(); }
    else if t == ShoeDimensions { ShoeDimensionsOk(); }
    else if t == ClothingDimensions { ClothingDimensionsOk(); }
    else if t == SkincareDimensions { SkincareDimensionsOk(); }
    else if t == FoodDimensions { FoodDimensionsOk(); }
    else if t == AdultToyDimensions { AdultToyDimensionsOk(); }
    else { DefaultDimensionsOk(); }
  }

  /**
   * Seven dimensions with distinct names: three item-specific ones, of
   * importance 10, 9 and 8, then the four common ones.
   */
  function GenerateDimensions(item: string): (d: seq<Dimension>)
    ensures |d| == 7
    ensures DistinctNames(d)
    ensures d[3..] == CommonDimensions
    ensures d[0].importance == 10 && d[1].importance == 9 && d[2].importance == 8
  {
    SpecificDimensionsOk(item);
    var t := SpecificDimensions(item);
    assert (t + CommonDimensions)[3..] == CommonDimensions;
    t + CommonDimensions
  }

  // ---------------------------------------------------------------------
  // generatePriceRanges
  // ---------------------------------------------------------------------

  const BandNamesFull: seq<string> := ["入门", "中端", "高端", "旗舰"]

  const DefaultBands: seq<PriceRange> :=
    [Band("入门", 0, 99), Band("中端", 100, 299), Band("高端", 300, 599), Band("旗舰", 600, 999999)]
  const ComputingBands: seq<PriceRange> :=
    [Band("入门", 0, 999), Band("中端", 1000, 2999), Band("高端", 3000, 4999), Band("旗舰", 5000, 999999)]
  const EarphoneBands: seq<PriceRange> :=
    [Band("入门", 0, 99), Band("中端", 100, 499), Band("高端", 500, 999), Band("旗舰", 1000, 999999)]
  const ShoeBands: seq<PriceRange> :=
    [Band("入门", 0, 199), Band("中端", 200, 499), Band("高端", 500, 999), Band("旗舰", 1000, 999999)]
  const RunningShoeBands: seq<PriceRange> :=
    [Band("入门", 0, 299), Band("中端", 300, 599), Band("高端", 600, 899), Band("旗舰", 900, 999999)]
  const ShirtBands: seq<PriceRange> :=
    [Band("入门", 0, 49), Band("中端", 50, 149), Band("高端", 150, 299), Band("旗舰", 300, 999999)]
  const UnderwearBands: seq<PriceRange> :=
    [Band("入门", 0, 19), Band("中端", 20, 49), Band("高端", 50, 99), Band("旗舰", 100, 999999)]
  const SkincareBands: seq<PriceRange> :=
    [Band("入门", 0, 99), Band("中端", 100, 299), Band("高端", 300, 599), Band("旗舰", 600, 999999)]
  const AdultToyBands: seq<PriceRange> :=
    [Band("入门", 0, 99), Band("中端", 100, 199), Band("高端", 200, 399), Band("旗舰", 400, 999999)]
  const CupBands: seq<PriceRange> :=
    [Band("入门", 0, 49), Band("中端", 50, 149), Band("高端", 150, 299), Band("旗舰", 300, 999999)]

  /** Shoes other than running shoes. */
  predicate IsPlainShoe(item: string) {
    Includes(item, "鞋") && !Includes(item, "跑鞋")
  }

  /**
   * Four contiguous bands named 入门/中端/高端/旗舰 covering [0, 999999];
   * the first matching keyword group picks the cut points.
   */
  function GeneratePriceRanges(item: string): (r: seq<PriceRange>)
    ensures ContiguousBands(r)
    ensures BandNames(r) == BandNamesFull
  {
    PriceRangesOk(item);
    ChoosePriceRanges(item)
  }

  /** Four contiguous bands covering [0, 999999] named 入门/中端/高端/旗舰. */
  predicate BandTableOk(t: seq<PriceRange>) {
    ContiguousBands(t) && BandNames(t) == BandNamesFull
  }

  lemma ComputingBandsOk() ensures BandTableOk(ComputingBands) {}
  lemma EarphoneBandsOk() ensures BandTableOk(EarphoneBands) {}
  lemma ShoeBandsOk() ensures BandTableOk(ShoeBands) {}
  lemma RunningShoeBandsOk() ensures BandTableOk(RunningShoeBands) {}
  lemma ShirtBandsOk() ensures BandTableOk(ShirtBands) {}
  lemma UnderwearBandsOk() ensures BandTableOk(UnderwearBands) {}
  lemma SkincareBandsOk() ensures BandTableOk(SkincareBands) {}
  lemma AdultToyBandsOk() ensures BandTableOk(AdultToyBands) {}
  lemma CupBandsOk() ensures BandTableOk(CupBands) {}
  lemma DefaultBandsOk() ensures BandTableOk(DefaultBands) {}

  lemma PriceRangesOk(item: string)
    ensures BandTableOk(ChoosePriceRanges(item))
  {
    var t := ChoosePriceRanges(item);
    if t == ComputingBands { ComputingBandsOk(); }
    else if t == EarphoneBands { EarphoneBandsOk(); }
    else if t == ShoeBands { ShoeBandsOk(); }
    else if t == RunningShoeBands { RunningShoeBandsOk(); }
    else if t == ShirtBands { ShirtBandsOk(); }
    else if t == UnderwearBands { UnderwearBandsOk(); }
    else if t == SkincareBands { SkincareBandsOk(); }
    else if t == AdultToyBands { AdultToyBandsOk(); }
    else if t == CupBands { CupBandsOk(); }
    else { DefaultBandsOk(); }
  }

  /** The table chosen by the first matching keyword group. */
  function ChoosePriceRanges(item: string): seq<PriceRange> {
    if IsComputing(item) then ComputingBands
    else if Includes(item, "耳机") then EarphoneBands
    else if IsPlainShoe(item) then ShoeBands
    else if Includes(item, "跑鞋") then RunningShoeBands
    else if Includes(item, "T恤") || Includes(item, "衬衫") then ShirtBands
    else if Includes(item, "内裤") then UnderwearBands
    else if Includes(item, "护肤") || Includes(item, "精华") then SkincareBands
    else if Includes(item, "震动棒") || Includes(item, "跳蛋") then AdultToyBands
    else if Includes(item, "飞机杯") then CupBands
    else DefaultBands
  }

  /**
   * Branch precedence: the generic shoe table goes exactly to items that
   * name a shoe but not a running shoe and name no computing device and no
   * earphone. In particular a 跑鞋 never gets it, although it names 鞋.
   */
  lemma ShoeBandsExactly(item: string)
    ensures GeneratePriceRanges(item) == ShoeBands <==>
      IsPlainShoe(item) && !IsComputing(item) && !Includes(item, "耳机")
  {
    assert ComputingBands[0].max != ShoeBands[0].max;
    assert EarphoneBands[0].max != ShoeBands[0].max;
    assert RunningShoeBands[0].max != ShoeBands[0].max;
    assert ShirtBands[0].max != ShoeBands[0].max;
    assert UnderwearBands[0].max != ShoeBands[0].max;
    assert SkincareBands[0].max != ShoeBands[0].max;
    assert AdultToyBands[0].max != ShoeBands[0].max;
    assert CupBands[0].max != ShoeBands[0].max;
    assert DefaultBands[0].max != ShoeBands[0].max;
  }

  /** A computing keyword wins over every later keyword, e.g. an item naming both 手机 and 耳机. */
  lemma ComputingWins(item: string)
    requires IsComputing(item)
    ensures GeneratePriceRanges(item)[3].min == 5000
    ensures GenerateDimensions(item)[0].name == "性能最强"
  {
  }

  // ---------------------------------------------------------------------
  // generateUniqueSlug
  // ---------------------------------------------------------------------

  /**
   * The base slug of an item: its normalised name, or, when that is shorter
   * than three characters, the normalisation of `level1-level2-base`.
   */
  function BaseSlug(name: string, level1Name: string, level2Name: string): (b: string)
    ensures WellFormedSlug(b)
    ensures |NormalizeSlug(name)| >= 3 ==> b == NormalizeSlug(name)
    ensures |NormalizeSlug(name)| < 3 ==> b == NormalizeSlug(level1Name + "-" + level2Name + "-" + NormalizeSlug(name))
  {
    var base := NormalizeSlug(name);
    if |base| < 3 then NormalizeSlug(level1Name + "-" + level2Name + "-" + base) else base
  }

  /** A two-character Chinese item is prefixed with its level names. */
  lemma ShortNameBaseSlug()
    ensures BaseSlug("手机", "数码电子", "智能手机") == "数码电子" + "-" + "智能手机" + "-" + "手机"
  {
    NormalizeSlugUnchanged("手机");
    assert NormalizeSlug("手机") == "手机";
    JoinWellFormed("数码电子", "智能手机");
    JoinWellFormed("数码电子" + "-" + "智能手机", "手机");
    NormalizeSlugUnchanged("数码电子" + "-" + "智能手机" + "-" + "手机");
  }

  /** The candidate tried after `k` collisions: `base-k`. */
  function Candidate(base: string, k: nat): string {
    base + "-" + NatToString(k)
  }

  /** The `i`-th slug tried: the base itself, then `base-1`, `base-2`, … */
  function Probe(base: string, i: nat): string {
    if i == 0 then base else Candidate(base, i)
  }

  /** The slugs tried before the `n`-th one. */
  function Probed(base: string, n: nat): set<string>
    decreases n
  {
    if n == 0 then {} else Probed(base, n - 1) + {Probe(base, n - 1)}
  }

  /** Different attempts give different slugs. */
  lemma ProbeInjective(base: string, i: nat, j: nat)
    requires Probe(base, i) == Probe(base, j)
    ensures i == j
  {
    if i != 0 && j != 0 {
      var p := base + "-";
      assert Candidate(base, i)[|p|..] == NatToString(i);
      assert Candidate(base, j)[|p|..] == NatToString(j);
      NatToStringInjective(i, j);
    }
  }

  lemma {:induction false} ProbedMembership(base: string, n: nat, s: string)
    ensures s in Probed(base, n) <==> exists i :: 0 <= i < n && s == Probe(base, i)
    decreases n
  {
    if n > 0 {
      ProbedMembership(base, n - 1, s);
    }
  }

  /** The next slug tried has not been tried yet. */
  lemma ProbeIsNew(base: string, n: nat)
    ensures Probe(base, n) !in Probed(base, n)
  {
    ProbedMembership(base, n, Probe(base, n));
    if Probe(base, n) in Probed(base, n) {
      var i :| 0 <= i < n && Probe(base, n) == Probe(base, i);
      ProbeInjective(base, n, i);
    }
  }

  /** Every slug tried before the `n`-th one is taken. */
  ghost predicate AllTaken(base: string, used: set<string>, n: nat) {
    forall j: nat :: j < n ==> Probe(base, j) in used
  }

  lemma ProbedAllTaken(base: string, used: set<string>, n: nat)
    requires Probed(base, n) <= used
    ensures AllTaken(base, used, n)
  {
    forall j: nat | j < n
      ensures Probe(base, j) in used
    {
      ProbedMembership(base, n, Probe(base, j));
    }
  }

  lemma ShrinkByOne(a: set<string>, b: set<string>, x: string)
    requires x in a && x !in b
    ensures |a - (b + {x})| < |a - b|
  {
    assert a - (b + {x}) == (a - b) - {x};
  }

  /** The set of slugs already handed out by one `generateCategories` call (`usedSlugs`). */
  class SlugRegistry {
    var used: set<string>

    constructor ()
      ensures used == {}
    {
      used := {};
    }

    /**
     * `generateUniqueSlug`: the first of `base`, `base-1`, `base-2`, … that
     * is not used yet; it is recorded as used.
     */
    method GenerateUniqueSlug(name: string, level1Name: string, level2Name: string) returns (slug: string)
      modifies this
      ensures slug !in old(used)
      ensures used == old(used) + {slug}
      ensures exists i: nat :: slug == Probe(BaseSlug(name, level1Name, level2Name), i)
                               && AllTaken(BaseSlug(name, level1Name, level2Name), old(used), i)
      ensures BaseSlug(name, level1Name, level2Name) !in old(used) ==> slug == BaseSlug(name, level1Name, level2Name)
    {
      var baseSlug := BaseSlug(name, level1Name, level2Name);
      slug := FirstFree(baseSlug);
      used := used + {slug};
    }

    /** The `while (usedSlugs.has(slug))` search from `base`. */
    method FirstFree(base: string) returns (slug: string)
      ensures slug !in used
      ensures exists i: nat :: slug == Probe(base, i) && AllTaken(base, used, i)
      ensures base !in used ==> slug == base
    {
      slug := base;
      var counter := 1;
      while slug in used
        invariant counter >= 1
        invariant slug == Probe(base, counter - 1)
        invariant Probed(base, counter - 1) <= used
        decreases |used - Probed(base, counter - 1)|
      {
        ProbeIsNew(base, counter - 1);
        ShrinkByOne(used, Probed(base, counter - 1), slug);
        slug := Candidate(base, counter);
        counter := counter + 1;
      }
      ProbedAllTaken(base, used, counter - 1);
      if counter > 1 {
        assert Probe(base, 0) in used;
      }
    }
  }

  // ---------------------------------------------------------------------
  // generateCategories: the three nested `forEach` loops
  // ---------------------------------------------------------------------

  datatype Level2Spec = Level2Spec(name: string, slug: string, icon: string, items: seq<string>)
  datatype Level2Group = Level2Group(level1: Level1, level2List: seq<Level2Spec>)

  /** One (level 1, level 2, item) triple of the taxonomy. */
  datatype Entry = Entry(level1: Level1, level2: Level2Spec, item: string)

  function ItemEntries(l1: Level1, l2: Level2Spec, items: seq<string>): seq<Entry>
    decreases |items|
  {
    if items == [] then [] else ItemEntries(l1, l2, items[..|items| - 1]) + [Entry(l1, l2, items[|items| - 1])]
  }

  function Level2Entries(l1: Level1, l2s: seq<Level2Spec>): seq<Entry>
    decreases |l2s|
  {
    if l2s == [] then [] else Level2Entries(l1, l2s[..|l2s| - 1]) + ItemEntries(l1, l2s[|l2s| - 1], l2s[|l2s| - 1].items)
  }

  /** All entries, group by group, level 2 by level 2, item by item. */
  function Entries(groups: seq<Level2Group>): seq<Entry>
    decreases |groups|
  {
    if groups == [] then []
    else Entries(groups[..|groups| - 1]) + Level2Entries(groups[|groups| - 1].level1, groups[|groups| - 1].level2List)
  }

  /** The category written for an entry, given its slug. */
  function CategoryFor(e: Entry, slug: string): Category {
    Category(
      e.level1,
      Level2(e.level2.name, e.level2.slug, e.level2.icon),
      Level3(e.item, slug, GenerateDimensions(e.item), GeneratePriceRanges(e.item)))
  }

  /** The base slug an entry starts from. */
  function EntryBase(e: Entry): string {
    BaseSlug(e.item, e.level1.name, e.level2.name)
  }

  /** `slug` is one of the slugs tried from `base`. */
  ghost predicate IsProbeOf(slug: string, base: string) {
    exists k: nat :: slug == Probe(base, k)
  }

  /** `cats` is the list built for `done` so far, with slugs handed out by `used`. */
  ghost predicate BuiltFor(cats: seq<Category>, done: seq<Entry>, used: set<string>) {
    MatchesEntries(cats, done, used) && SlugsDistinct(cats)
  }

  /** Each built category is the category of its entry, under a used probe slug of that entry. */
  ghost predicate MatchesEntries(cats: seq<Category>, done: seq<Entry>, used: set<string>) {
    && |cats| == |done|
    && (forall i :: 0 <= i < |cats| ==>
          && cats[i] == CategoryFor(done[i], cats[i].level3.slug)
          && cats[i].level3.slug in used
          && IsProbeOf(cats[i].level3.slug, EntryBase(done[i])))
  }

  predicate SlugsDistinct(cats: seq<Category>) {
    forall i, j :: 0 <= i < j < |cats| ==> cats[i].level3.slug != cats[j].level3.slug
  }

  lemma MatchesEntriesPush(cats: seq<Category>, done: seq<Entry>, used: set<string>, e: Entry, slug: string)
    requires MatchesEntries(cats, done, used)
    requires IsProbeOf(slug, EntryBase(e))
    ensures MatchesEntries(cats + [CategoryFor(e, slug)], done + [e], used + {slug})
  {
    var cats', done' := cats + [CategoryFor(e, slug)], done + [e];
    forall i | 0 <= i < |cats'|
      ensures cats'[i] == CategoryFor(done'[i], cats'[i].level3.slug)
      ensures cats'[i].level3.slug in used + {slug}
      ensures IsProbeOf(cats'[i].level3.slug, EntryBase(done'[i]))
    {
      if i < |cats| {
        assert cats'[i] == cats[i] && done'[i] == done[i];
      }
    }
  }

  lemma SlugsDistinctPush(cats: seq<Category>, c: Category, used: set<string>)
    requires SlugsDistinct(cats)
    requires forall i :: 0 <= i < |cats| ==> cats[i].level3.slug in used
    requires c.level3.slug !in used
    ensures SlugsDistinct(cats + [c])
  {
    var cats' := cats + [c];
    forall i, j | 0 <= i < j < |cats'|
      ensures cats'[i].level3.slug != cats'[j].level3.slug
    {
      assert cats'[i] == cats[i];
      if j < |cats| {
        assert cats'[j] == cats[j];
      }
    }
  }

  /** Appending the category of one more entry, with a slug not used before. */
  lemma BuiltForPush(cats: seq<Category>, done: seq<Entry>, used: set<string>, e: Entry, slug: string)
    requires BuiltFor(cats, done, used)
    requires slug !in used
    requires IsProbeOf(slug, EntryBase(e))
    ensures BuiltFor(cats + [CategoryFor(e, slug)], done + [e], used + {slug})
  {
    MatchesEntriesPush(cats, done, used, e, slug);
    SlugsDistinctPush(cats, CategoryFor(e, slug), used);
  }

  lemma ItemEntriesStep(done: seq<Entry>, l1: Level1, l2: Level2Spec, items: seq<string>, k: nat)
    requires k < |items|
    ensures done + ItemEntries(l1, l2, items[..k + 1]) == (done + ItemEntries(l1, l2, items[..k])) + [Entry(l1, l2, items[k])]
  {
    assert items[..k + 1][..k] == items[..k];
  }

  /** One item of the innermost `forEach`: a fresh slug, then the category pushed. */
  method AddItem(registry: SlugRegistry, e: Entry, cats: seq<Category>, ghost done: seq<Entry>)
      returns (cats': seq<Category>)
    requires BuiltFor(cats, done, registry.used)
    modifies registry
    ensures BuiltFor(cats', done + [e], registry.used)
  {
    ghost var usedBefore := registry.used;
    var slug := registry.GenerateUniqueSlug(e.item, e.level1.name, e.level2.name);
    BuiltForPush(cats, done, usedBefore, e, slug);
    cats' := cats + [CategoryFor(e, slug)];
  }

  /** The innermost `forEach`: one category per item of `l2`, appended in item order. */
  method AddItems(registry: SlugRegistry, l1: Level1, l2: Level2Spec, cats: seq<Category>, ghost done: seq<Entry>)
      returns (cats': seq<Category>)
    requires BuiltFor(cats, done, registry.used)
    modifies registry
    ensures BuiltFor(cats', done + ItemEntries(l1, l2, l2.items), registry.used)
  {
    var items := l2.items;
    cats' := cats;
    var k := 0;
    while k < |items|
      invariant 0 <= k <= |items|
      invariant BuiltFor(cats', done + ItemEntries(l1, l2, items[..k]), registry.used)
    {
      ghost var before := done + ItemEntries(l1, l2, items[..k]);
      var e := Entry(l1, l2, items[k]);
      cats' := AddItem(registry, e, cats', before);
      ItemEntriesStep(done, l1, l2, items, k);
      k := k + 1;
    }
    assert items[..k] == items;
  }

  /** The middle `forEach`: the level-2 entries of one group, in list order. */
  method AddLevel2s(registry: SlugRegistry, l1: Level1, l2s: seq<Level2Spec>, cats: seq<Category>, ghost done: seq<Entry>)
      returns (cats': seq<Category>)
    requires BuiltFor(cats, done, registry.used)
    modifies registry
    ensures BuiltFor(cats', done + Level2Entries(l1, l2s), registry.used)
  {
    cats' := cats;
    var j := 0;
    while j < |l2s|
      invariant 0 <= j <= |l2s|
      invariant BuiltFor(cats', done + Level2Entries(l1, l2s[..j]), registry.used)
    {
      ghost var before := done + Level2Entries(l1, l2s[..j]);
      cats' := AddItems(registry, l1, l2s[j], cats', before);
      Level2EntriesStep(done, l1, l2s, j);
      j := j + 1;
    }
    assert l2s[..j] == l2s;
  }

  lemma Level2EntriesStep(done: seq<Entry>, l1: Level1, l2s: seq<Level2Spec>, j: nat)
    requires j < |l2s|
    ensures done + Level2Entries(l1, l2s[..j + 1])
         == (done + Level2Entries(l1, l2s[..j])) + ItemEntries(l1, l2s[j], l2s[j].items)
  {
    assert l2s[..j + 1][..j] == l2s[..j];
  }

  /**
   * `generateCategories`: one category per entry, in entry order, with the
   * entry's names, item and tables, and with pairwise distinct level-3 slugs,
   * each a probe of the entry's base slug.
   */
  method GenerateCategories(groups: seq<Level2Group>) returns (cats: seq<Category>)
    ensures |cats| == |Entries(groups)|
    ensures forall i :: 0 <= i < |cats| ==> cats[i] == CategoryFor(Entries(groups)[i], cats[i].level3.slug)
    ensures forall i :: 0 <= i < |cats| ==> IsProbeOf(cats[i].level3.slug, EntryBase(Entries(groups)[i]))
    ensures forall i, j :: 0 <= i < j < |cats| ==> cats[i].level3.slug != cats[j].level3.slug
  {
    var registry := new SlugRegistry();
    cats := [];
    var g := 0;
    while g < |groups|
      invariant 0 <= g <= |groups|
      invariant BuiltFor(cats, Entries(groups[..g]), registry.used)
    {
      cats := AddLevel2s(registry, groups[g].level1, groups[g].level2List, cats, Entries(groups[..g]));
      assert groups[..g + 1][..g] == groups[..g];
      g := g + 1;
    }
    assert groups[..g] == groups;
  }
}
