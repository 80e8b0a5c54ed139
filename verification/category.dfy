/**
 * The Category document (lib/models/Category.js) and the collection that
 * stores it. A category is a three-level taxonomy node; its level-3 part
 * owns the dimensions and price ranges the answer engine enumerates.
 * A category's `_id` is its position in the collection.
 */
module CategoryModel {
  import opened Wrappers

  /** The `level1.region` enum. */
  datatype Region = Global | China | Both

  function RegionName(r: Region): string {
    match r
    case Global => "global"
    case China => "china"
    case Both => "both"
  }

  datatype Level1 = Level1(name: string, slug: string, icon: string, region: Region)
  datatype Level2 = Level2(name: string, slug: string, icon: string)
  datatype Dimension = Dimension(name: string, importance: int)
  datatype PriceRange = PriceRange(name: string, min: int, max: int, unit: string)
  datatype Level3 = Level3(name: string, slug: string, dimensions: seq<Dimension>, priceRanges: seq<PriceRange>)

  datatype Category = Category(level1: Level1, level2: Level2, level3: Level3) {
    /** Mongoose's `required` string validator: name and slug present and non-empty at every level. */
    predicate HasRequired() {
      level1.name != "" && level1.slug != "" && level2.name != "" && level2.slug != ""
      && level3.name != "" && level3.slug != ""
    }
  }

  // Schema defaults.
  const DefaultLevel1Icon: string := "fa-box"
  const DefaultLevel2Icon: string := "fa-folder"
  const DefaultUnit: string := "CNY"
  const DefaultRegion: Region := Both

  /** A level-1 record as the schema stores it when `icon` or `region` is omitted. */
  function NewLevel1(name: string, slug: string, icon: Option<string>, region: Option<Region>): (l: Level1)
    ensures l.name == name && l.slug == slug
    ensures icon.None? ==> l.icon == "fa-box"
    ensures region.None? ==> l.region == Both
    ensures icon.Some? ==> l.icon == icon.value
    ensures region.Some? ==> l.region == region.value
  {
    Level1(name, slug, icon.GetOr(DefaultLevel1Icon), region.GetOr(DefaultRegion))
  }

  /** A level-2 record as the schema stores it when `icon` is omitted. */
  function NewLevel2(name: string, slug: string, icon: Option<string>): (l: Level2)
    ensures l.name == name && l.slug == slug
    ensures icon.None? ==> l.icon == "fa-folder"
    ensures icon.Some? ==> l.icon == icon.value
  {
    Level2(name, slug, icon.GetOr(DefaultLevel2Icon))
  }

  /** A price range written by the scripts, which never give a unit: the schema fills in `'CNY'`. */
  function Band(name: string, min: int, max: int): (p: PriceRange)
    ensures p.unit == "CNY" && p.name == name && p.min == min && p.max == max
  {
    PriceRange(name, min, max, DefaultUnit)
  }

  /** The three dimensions the incremental import scripts start every dimension list with. */
  const QualityDimensions: seq<Dimension> :=
    [Dimension("质量最好", 10), Dimension("性价比最高", 9), Dimension("最耐用", 8)]

  /** The 经济型/标准型/专业型/工业级 table of the import scripts. */
  const GradeBands: seq<PriceRange> :=
    [Band("经济型", 0, 50), Band("标准型", 51, 200), Band("专业型", 201, 1000), Band("工业级", 1001, 999999)]

  // ---------------------------------------------------------------------
  // Shapes every price table and dimension list of the scripts has.
  // ---------------------------------------------------------------------

  /**
   * Four bands that tile [0, 999999]: the first starts at 0, the last ends at
   * 999999, each is non-empty and starts one above the previous band's max.
   */
  predicate ContiguousBands(r: seq<PriceRange>) {
    && |r| == 4
    && r[0].min == 0
    && r[3].max == 999999
    && (forall i :: 0 <= i < 4 ==> r[i].min <= r[i].max && r[i].unit == "CNY")
    && (forall i :: 0 < i < 4 ==> r[i].min == r[i - 1].max + 1)
  }

  /** Contiguous bands put every price of [0, 999999] in exactly one band. */
  lemma ContiguousBandsPartition(r: seq<PriceRange>, price: int)
    requires ContiguousBands(r)
    requires 0 <= price <= 999999
    ensures exists i :: 0 <= i < 4 && r[i].min <= price <= r[i].max
    ensures forall i, j :: 0 <= i < 4 && 0 <= j < 4 && r[i].min <= price <= r[i].max && r[j].min <= price <= r[j].max ==> i == j
  {
    if price <= r[0].max {
      assert r[0].min <= price <= r[0].max;
    } else if price <= r[1].max {
      assert r[1].min <= price <= r[1].max;
    } else if price <= r[2].max {
      assert r[2].min <= price <= r[2].max;
    } else {
      assert r[3].min <= price <= r[3].max;
    }
    forall i, j | 0 <= i < 4 && 0 <= j < 4 && r[i].min <= price <= r[i].max && r[j].min <= price <= r[j].max
      ensures i == j
    {
      if i < j {
        BandsIncrease(r, i, j);
      } else if j < i {
        BandsIncrease(r, j, i);
      }
    }
  }

  /** In contiguous bands a later band lies wholly above an earlier one. */
  lemma {:induction false} BandsIncrease(r: seq<PriceRange>, i: int, j: int)
    requires ContiguousBands(r)
    requires 0 <= i < j < 4
    ensures r[i].max < r[j].min
    decreases j - i
  {
    if j > i + 1 {
      BandsIncrease(r, i, j - 1);
    }
  }

  function BandNames(r: seq<PriceRange>): seq<string> {
    seq(|r|, i requires 0 <= i < |r| => r[i].name)
  }

  predicate DistinctNames(d: seq<Dimension>) {
    forall i, j :: 0 <= i < j < |d| ==> d[i].name != d[j].name
  }

  function DimensionNames(d: seq<Dimension>): seq<string> {
    seq(|d|, i requires 0 <= i < |d| => d[i].name)
  }

  // ---------------------------------------------------------------------
  // The collection, with the unique indexes on level3.name and level3.slug.
  // ---------------------------------------------------------------------

  function Level3Names(cats: seq<Category>): set<string> {
    set i | 0 <= i < |cats| :: cats[i].level3.name
  }

  function Level3Slugs(cats: seq<Category>): set<string> {
    set i | 0 <= i < |cats| :: cats[i].level3.slug
  }

  /** No two stored categories share a level-3 name or a level-3 slug. */
  predicate UniqueLevel3(cats: seq<Category>) {
    forall i, j :: 0 <= i < j < |cats| ==>
      cats[i].level3.name != cats[j].level3.name && cats[i].level3.slug != cats[j].level3.slug
  }

  /** What `Category.create` reports: success, an E11000 duplicate key, or a validation error. */
  datatype CreateOutcome = Created | DuplicateKey | ValidationError

  /** Validation runs first; then the unique indexes decide. */
  function CreateOutcomeOf(cats: seq<Category>, c: Category): (o: CreateOutcome)
    ensures o == Created <==>
      c.HasRequired() && c.level3.name !in Level3Names(cats) && c.level3.slug !in Level3Slugs(cats)
    ensures o == ValidationError <==> !c.HasRequired()
  {
    if !c.HasRequired() then ValidationError
    else if c.level3.name in Level3Names(cats) || c.level3.slug in Level3Slugs(cats) then DuplicateKey
    else Created
  }

  /** The collection after one `create`: the document is appended exactly when it was accepted. */
  function AfterCreate(cats: seq<Category>, c: Category): seq<Category> {
    if CreateOutcomeOf(cats, c) == Created then cats + [c] else cats
  }

  /** `create` keeps both unique indexes intact. */
  lemma CreatePreservesUnique(cats: seq<Category>, c: Category)
    requires UniqueLevel3(cats)
    ensures UniqueLevel3(AfterCreate(cats, c))
    ensures |AfterCreate(cats, c)| <= |cats| + 1
    ensures AfterCreate(cats, c)[..|cats|] == cats
  {
    if CreateOutcomeOf(cats, c) == Created {
      var r := cats + [c];
      forall i | 0 <= i < |cats|
        ensures r[i].level3.name != c.level3.name && r[i].level3.slug != c.level3.slug
      {
        assert cats[i].level3.name in Level3Names(cats);
        assert cats[i].level3.slug in Level3Slugs(cats);
      }
    }
  }

  /** The collection after `create` of each category of `batch` in turn. */
  function CreateAll(cats: seq<Category>, batch: seq<Category>): seq<Category>
    decreases |batch|
  {
    if batch == [] then cats
    else AfterCreate(CreateAll(cats, batch[..|batch| - 1]), batch[|batch| - 1])
  }

  /** Creating in turn keeps the indexes intact, only appends, and adds at most one document per category. */
  lemma {:induction false} CreateAllGrowth(cats: seq<Category>, batch: seq<Category>)
    requires UniqueLevel3(cats)
    ensures UniqueLevel3(CreateAll(cats, batch))
    ensures cats <= CreateAll(cats, batch)
    ensures |CreateAll(cats, batch)| <= |cats| + |batch|
    decreases |batch|
  {
    if batch != [] {
      var before := CreateAll(cats, batch[..|batch| - 1]);
      CreateAllGrowth(cats, batch[..|batch| - 1]);
      CreatePreservesUnique(before, batch[|batch| - 1]);
      assert before[..|cats|] == cats;
    }
  }

  /** Creating `batch + [c]` is creating `batch`, then `c`. */
  lemma CreateAllPush(cats: seq<Category>, batch: seq<Category>, c: Category)
    ensures CreateAll(cats, batch + [c]) == AfterCreate(CreateAll(cats, batch), c)
  {
    assert (batch + [c])[..|batch|] == batch;
  }

  /** Creating `a` then `b` is creating `a + b`. */
  lemma {:induction false} CreateAllAppend(cats: seq<Category>, a: seq<Category>, b: seq<Category>)
    ensures CreateAll(CreateAll(cats, a), b) == CreateAll(cats, a + b)
    decreases |b|
  {
    if b == [] {
      assert a + b == a;
    } else {
      CreateAllAppend(cats, a, b[..|b| - 1]);
      assert (a + b)[..|a + b| - 1] == a + b[..|b| - 1];
    }
  }

  /**
   * No document of `batch`, created in turn, was refused for a duplicate key.
   * A document refused by validation alone does not count as a refusal here.
   */
  predicate NoDuplicateRefusal(cats: seq<Category>, batch: seq<Category>)
    decreases |batch|
  {
    batch == [] ||
      var n := |batch| - 1;
      NoDuplicateRefusal(cats, batch[..n]) && CreateOutcomeOf(CreateAll(cats, batch[..n]), batch[n]) != DuplicateKey
  }

  /** A batch that was stored whole met no duplicate key. */
  lemma {:induction false} StoredWholeMeansNoRefusal(cats: seq<Category>, batch: seq<Category>)
    requires UniqueLevel3(cats)
    requires |CreateAll(cats, batch)| == |cats| + |batch|
    ensures NoDuplicateRefusal(cats, batch)
    decreases |batch|
  {
    if batch != [] {
      var n := |batch| - 1;
      CreateAllGrowth(cats, batch[..n]);
      StoredWholeMeansNoRefusal(cats, batch[..n]);
    }
  }

  /** When every document of the batch passes validation, meeting no duplicate key means storing the batch whole. */
  lemma {:induction false} NoRefusalStoresValidWhole(cats: seq<Category>, batch: seq<Category>)
    requires forall i :: 0 <= i < |batch| ==> batch[i].HasRequired()
    requires NoDuplicateRefusal(cats, batch)
    ensures |CreateAll(cats, batch)| == |cats| + |batch|
    decreases |batch|
  {
    if batch != [] {
      var n := |batch| - 1;
      assert batch[n].HasRequired();
      NoRefusalStoresValidWhole(cats, batch[..n]);
    }
  }

  lemma Level3NamesGrow(cats: seq<Category>, more: seq<Category>)
    requires cats <= more
    ensures Level3Names(cats) <= Level3Names(more) && Level3Slugs(cats) <= Level3Slugs(more)
  {
    forall n | n in Level3Names(cats) ensures n in Level3Names(more) {
      var i :| 0 <= i < |cats| && cats[i].level3.name == n;
      assert more[i] == cats[i];
    }
    forall n | n in Level3Slugs(cats) ensures n in Level3Slugs(more) {
      var i :| 0 <= i < |cats| && cats[i].level3.slug == n;
      assert more[i] == cats[i];
    }
  }

  /**
   * After a category was offered once, offering it again is refused: either
   * it was stored (its name is now taken) or it was refused, and what refused
   * it is still there.
   */
  lemma {:induction false} CreateAllRefusesRepeat(cats: seq<Category>, batch: seq<Category>, c: Category)
    requires UniqueLevel3(cats)
    requires c in batch
    ensures CreateOutcomeOf(CreateAll(cats, batch), c) != Created
    decreases |batch|
  {
    var n := |batch| - 1;
    var before := CreateAll(cats, batch[..n]);
    var after := CreateAll(cats, batch);
    CreateAllGrowth(cats, batch[..n]);
    CreatePreservesUnique(before, batch[n]);
    Level3NamesGrow(before, after);
    if c in batch[..n] {
      CreateAllRefusesRepeat(cats, batch[..n], c);
    } else {
      assert c == batch[n];
      if CreateOutcomeOf(before, c) == Created {
        assert after[|before|] == c;
        assert c.level3.name in Level3Names(after);
      }
    }
  }

  /** Offering again categories that were all offered before changes nothing. */
  lemma {:induction false} CreateAllRepeatIsNoop(cats: seq<Category>, batch: seq<Category>, again: seq<Category>)
    requires UniqueLevel3(cats)
    requires forall c :: c in again ==> c in batch
    ensures CreateAll(CreateAll(cats, batch), again) == CreateAll(cats, batch)
    decreases |again|
  {
    if again != [] {
      var n := |again| - 1;
      assert forall c :: c in again[..n] ==> c in again;
      CreateAllRepeatIsNoop(cats, batch, again[..n]);
      assert again[n] in again;
      CreateAllRefusesRepeat(cats, batch, again[n]);
    }
  }

  lemma Level3NamesPush(cats: seq<Category>, c: Category)
    ensures Level3Names(cats + [c]) == Level3Names(cats) + {c.level3.name}
  {
    var r := cats + [c];
    forall n | n in Level3Names(r) ensures n in Level3Names(cats) + {c.level3.name} {
      var i :| 0 <= i < |r| && r[i].level3.name == n;
      if i < |cats| {
        assert cats[i].level3.name == n;
      }
    }
    forall n | n in Level3Names(cats) + {c.level3.name} ensures n in Level3Names(r) {
      if n == c.level3.name {
        assert r[|cats|].level3.name == n;
      } else {
        var i :| 0 <= i < |cats| && cats[i].level3.name == n;
        assert r[i].level3.name == n;
      }
    }
  }

  lemma Level3SlugsPush(cats: seq<Category>, c: Category)
    ensures Level3Slugs(cats + [c]) == Level3Slugs(cats) + {c.level3.slug}
  {
    var r := cats + [c];
    forall n | n in Level3Slugs(r) ensures n in Level3Slugs(cats) + {c.level3.slug} {
      var i :| 0 <= i < |r| && r[i].level3.slug == n;
      if i < |cats| {
        assert cats[i].level3.slug == n;
      }
    }
    forall n | n in Level3Slugs(cats) + {c.level3.slug} ensures n in Level3Slugs(r) {
      if n == c.level3.slug {
        assert r[|cats|].level3.slug == n;
      } else {
        var i :| 0 <= i < |cats| && cats[i].level3.slug == n;
        assert r[i].level3.slug == n;
      }
    }
  }

  /** `existing.forEach(doc => existingNames.add(doc.level3.name))`. */
  method CollectNames(cats: seq<Category>) returns (names: set<string>)
    ensures names == Level3Names(cats)
  {
    names := {};
    var i := 0;
    while i < |cats|
      invariant 0 <= i <= |cats|
      invariant names == Level3Names(cats[..i])
    {
      assert cats[..i + 1] == cats[..i] + [cats[i]];
      Level3NamesPush(cats[..i], cats[i]);
      names := names + {cats[i].level3.name};
      i := i + 1;
    }
    assert cats[..i] == cats;
  }

  /** The first stored category whose level-1 name is `name` (`findOne({'level1.name': name})`). */
  function FirstWithLevel1(cats: seq<Category>, name: string): (r: Option<Category>)
    ensures r.Some? ==> r.value in cats && r.value.level1.name == name
    ensures r.None? <==> forall i :: 0 <= i < |cats| ==> cats[i].level1.name != name
    decreases |cats|
  {
    if cats == [] then None
    else if cats[0].level1.name == name then Some(cats[0])
    else FirstWithLevel1(cats[1..], name)
  }

  /** Appending documents never changes an existing `findOne` hit; a miss is looked up among the new ones. */
  lemma {:induction false} FirstWithLevel1Append(cats: seq<Category>, more: seq<Category>, name: string)
    ensures FirstWithLevel1(cats + more, name)
      == (if FirstWithLevel1(cats, name).Some? then FirstWithLevel1(cats, name) else FirstWithLevel1(more, name))
    decreases |cats|
  {
    if cats == [] {
      assert cats + more == more;
    } else {
      assert (cats + more)[1..] == cats[1..] + more;
      FirstWithLevel1Append(cats[1..], more, name);
    }
  }

  /** The category collection: a sequence kept free of level-3 name and slug duplicates. */
  class CategoryStore {
    var cats: seq<Category>

    ghost predicate Valid()
      reads this
    {
      UniqueLevel3(cats)
    }

    constructor (initial: seq<Category>)
      requires UniqueLevel3(initial)
      ensures Valid() && cats == initial
    {
      cats := initial;
    }

    /** `Category.deleteMany({})`. */
    method DeleteAll()
      modifies this
      ensures Valid() && cats == []
    {
      cats := [];
    }

    /** `Category.create(c)`. */
    method Create(c: Category) returns (outcome: CreateOutcome)
      requires Valid()
      modifies this
      ensures Valid()
      ensures outcome == CreateOutcomeOf(old(cats), c)
      ensures cats == AfterCreate(old(cats), c)
    {
      outcome := CreateOutcomeOf(cats, c);
      CreatePreservesUnique(cats, c);
      if outcome == Created {
        cats := cats + [c];
      }
    }

    /**
     * `Category.insertMany(batch, {ordered: false})`: every document is tried
     * in order against the indexes. Documents that fail validation are left
     * out without an error; `complete` is false (the call throws a bulk write
     * error) exactly when at least one document was refused for a duplicate key.
     */
    method InsertMany(batch: seq<Category>) returns (complete: bool)
      requires Valid()
      modifies this
      ensures Valid()
      ensures cats == CreateAll(old(cats), batch)
      ensures complete == NoDuplicateRefusal(old(cats), batch)
    {
      var start := cats;
      complete := true;
      var i := 0;
      while i < |batch|
        invariant 0 <= i <= |batch|
        invariant Valid()
        invariant cats == CreateAll(start, batch[..i])
        invariant complete == NoDuplicateRefusal(start, batch[..i])
      {
        assert batch[..i + 1][..i] == batch[..i];
        var outcome := Create(batch[i]);
        complete := complete && outcome != DuplicateKey;
        i := i + 1;
      }
      assert batch[..i] == batch;
    }

    /** `Category.findOne({'level3.name': name})` used as an existence check. */
    function HasLevel3Name(name: string): (b: bool)
      reads this
      ensures b <==> exists i :: 0 <= i < |cats| && cats[i].level3.name == name
    {
      name in Level3Names(cats)
    }
  }
}
