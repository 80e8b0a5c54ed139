/**
 * scripts/import-categories.js: rebuild the category collection from a
 * level-1 list and a directory of level-3 seed files, skipping malformed
 * entries and counting the categories created and the errors met.
 *
 * The directory listing and the file contents are parameters; a file that
 * cannot be read or parsed has no content.
 */
module ImportCategories {
  import opened Wrappers
  import opened Text
  import opened Slugs
  import opened CategoryModel

  // ---------------------------------------------------------------------
  // generateDimensions(itemName, level2Name)
  // ---------------------------------------------------------------------

  predicate IsFastener(item: string, level2: string) {
    Includes(item, "螺丝") || Includes(item, "螺栓") || Includes(level2, "紧固件")
  }

  predicate IsTool(item: string, level2: string) {
    Includes(item, "工具") || Includes(level2, "工具")
  }

  /** The two trailing dimensions: the first matching keyword group decides. */
  function ImportSpecific(item: string, level2: string): seq<Dimension> {
    if IsFastener(item, level2) then [Dimension("强度最高", 10), Dimension("防锈最好", 9)]
    else if IsTool(item, level2) then [Dimension("最锋利", 10), Dimension("最顺手", 9)]
    else if Includes(item, "轴承") then [Dimension("精度最高", 10), Dimension("寿命最长", 9)]
    else if Includes(item, "阀门") then [Dimension("密封最好", 10), Dimension("耐压最高", 9)]
    else [Dimension("品牌最好", 7), Dimension("销量最好", 6)]
  }

  /** `generateDimensions(itemName, level2Name)`: the three common dimensions, then the two specific ones. */
  function GenerateDimensions(item: string, level2: string): seq<Dimension> {
    QualityDimensions + ImportSpecific(item, level2)
  }

  /** Five dimensions with distinct names, the three common ones first. */
  lemma ImportDimensionsShape(item: string, level2: string)
    ensures |GenerateDimensions(item, level2)| == 5
    ensures DistinctNames(GenerateDimensions(item, level2))
    ensures GenerateDimensions(item, level2)[..3] == QualityDimensions
  {
    var d := GenerateDimensions(item, level2);
    assert d[..3] == QualityDimensions;
  }

  /**
   * Branch precedence: the fastener group is checked before the tool group,
   * so a fastener item filed under a tool level 2 still gets the fastener
   * dimensions; the last two dimensions are the brand/sales pair exactly
   * when no keyword group matches.
   */
  lemma ImportDimensionPrecedence(item: string, level2: string)
    ensures IsFastener(item, level2) ==> GenerateDimensions(item, level2)[3].name == "强度最高"
    ensures GenerateDimensions(item, level2)[3].name == "最锋利" <==> !IsFastener(item, level2) && IsTool(item, level2)
    ensures GenerateDimensions(item, level2)[3].name == "品牌最好" <==>
      !IsFastener(item, level2) && !IsTool(item, level2) && !Includes(item, "轴承") && !Includes(item, "阀门")
  {
  }

  // ---------------------------------------------------------------------
  // generatePriceRanges(itemName, level2Name)
  // ---------------------------------------------------------------------

  const GradeNames: seq<string> := ["经济型", "标准型", "专业型", "工业级"]
  const PowerToolNames: seq<string> := ["家用级", "专业级", "工业级", "旗舰级"]

  const PrecisionBands: seq<PriceRange> :=
    [Band("经济型", 0, 100), Band("标准型", 101, 500), Band("专业型", 501, 2000), Band("工业级", 2001, 999999)]
  const PowerToolBands: seq<PriceRange> :=
    [Band("家用级", 0, 200), Band("专业级", 201, 800), Band("工业级", 801, 3000), Band("旗舰级", 3001, 999999)]
  const SmallPartBands: seq<PriceRange> :=
    [Band("经济型", 0, 10), Band("标准型", 11, 50), Band("专业型", 51, 200), Band("工业级", 201, 999999)]

  predicate IsPrecision(item: string) { Includes(item, "轴承") || Includes(item, "精密") }
  predicate IsPowerTool(item: string) { Includes(item, "电动工具") || Includes(item, "电钻") }
  predicate IsSmallPart(item: string) { Includes(item, "微型") || Includes(item, "小") }

  /**
   * `generatePriceRanges(itemName, level2Name)`: the first matching keyword
   * group picks the table. The level-2 name is accepted and not consulted.
   */
  function GeneratePriceRanges(item: string, level2: string): seq<PriceRange> {
    if IsPrecision(item) then PrecisionBands
    else if IsPowerTool(item) then PowerToolBands
    else if IsSmallPart(item) then SmallPartBands
    else GradeBands
  }

  /**
   * Four contiguous bands covering [0, 999999]; they carry the power-tool
   * names exactly when the item names a power tool and is not a precision part.
   */
  lemma ImportPriceRangesShape(item: string, level2: string)
    ensures ContiguousBands(GeneratePriceRanges(item, level2))
    ensures BandNames(GeneratePriceRanges(item, level2)) == PowerToolNames <==> !IsPrecision(item) && IsPowerTool(item)
    ensures BandNames(GeneratePriceRanges(item, level2)) == GradeNames <==> !(!IsPrecision(item) && IsPowerTool(item))
  {
    assert PowerToolNames[0] != GradeNames[0];
    if IsPrecision(item) { PrecisionBandsOk(); }
    else if IsPowerTool(item) { PowerToolBandsOk(); }
    else if IsSmallPart(item) { SmallPartBandsOk(); }
    else { GradeBandsOk(); }
  }

  lemma PrecisionBandsOk() ensures ContiguousBands(PrecisionBands) && BandNames(PrecisionBands) == GradeNames {}
  lemma PowerToolBandsOk() ensures ContiguousBands(PowerToolBands) && BandNames(PowerToolBands) == PowerToolNames {}
  lemma SmallPartBandsOk() ensures ContiguousBands(SmallPartBands) && BandNames(SmallPartBands) == GradeNames {}
  lemma GradeBandsOk() ensures ContiguousBands(GradeBands) && BandNames(GradeBands) == GradeNames {}

  // ---------------------------------------------------------------------
  // The input records.
  // ---------------------------------------------------------------------

  /** A level-2 record of a seed file; `items` is `None` when it is missing or not an array. */
  datatype Level2Record = Level2Record(name: string, icon: string, items: Option<seq<string>>)

  /** A parsed seed file; `categories` is `None` when it is missing or not an array. */
  datatype SeedFile = SeedFile(level1: Option<string>, categories: Option<seq<Option<Level2Record>>>)

  /** A directory entry; `content` is `None` when reading or parsing the file fails. */
  datatype DirEntry = DirEntry(fileName: string, content: Option<SeedFile>)

  predicate EndsWith(s: string, suffix: string) {
    |suffix| <= |s| && s[|s| - |suffix|..] == suffix
  }

  predicate IsJsonFile(f: DirEntry) { EndsWith(f.fileName, ".json") }

  /** `level1Map[l1.name] = l1` for each record in order: a later record with the same name wins. */
  function Level1Map(data: seq<Level1>): map<string, Level1>
    decreases |data|
  {
    if data == [] then map[]
    else
      var n := |data| - 1;
      Level1Map(data[..n])[data[n].name := data[n]]
  }

  /** The map's keys are exactly the listed names. */
  lemma {:induction false} Level1MapKeys(data: seq<Level1>, name: string)
    ensures name in Level1Map(data) <==> exists i :: 0 <= i < |data| && data[i].name == name
    decreases |data|
  {
    if data != [] {
      var n := |data| - 1;
      Level1MapKeys(data[..n], name);
      if exists i :: 0 <= i < |data| && data[i].name == name {
        var i :| 0 <= i < |data| && data[i].name == name;
        if i < n {
          assert data[..n][i] == data[i];
        }
      }
      if exists i :: 0 <= i < n && data[..n][i].name == name {
        var i :| 0 <= i < n && data[..n][i].name == name;
        assert data[i] == data[..n][i];
      }
    }
  }

  /** A listed name is bound to the last record carrying it. */
  lemma {:induction false} Level1MapLast(data: seq<Level1>, name: string)
    requires name in Level1Map(data)
    ensures exists i :: 0 <= i < |data| && data[i] == Level1Map(data)[name] && forall j :: i < j < |data| ==> data[j].name != name
    decreases |data|
  {
    var n := |data| - 1;
    if data[n].name != name {
      Level1MapLast(data[..n], name);
      var i :| 0 <= i < n && data[..n][i] == Level1Map(data[..n])[name]
        && forall j :: i < j < n ==> data[..n][j].name != name;
      assert data[i] == data[..n][i];
      forall j | i < j < |data| ensures data[j].name != name {
        if j < n {
          assert data[j] == data[..n][j];
        }
      }
    }
  }

  /** The map holds exactly the listed names, each bound to the last record carrying it. */
  lemma Level1MapLookup(data: seq<Level1>, name: string)
    ensures name in Level1Map(data) <==> exists i :: 0 <= i < |data| && data[i].name == name
    ensures name in Level1Map(data) ==>
      exists i :: 0 <= i < |data| && data[i] == Level1Map(data)[name] && forall j :: i < j < |data| ==> data[j].name != name
  {
    Level1MapKeys(data, name);
    if name in Level1Map(data) {
      Level1MapLast(data, name);
    }
  }

  /** `level1Map` built by the `forEach` over the level-1 records. */
  method BuildLevel1Map(data: seq<Level1>) returns (m: map<string, Level1>)
    ensures m == Level1Map(data)
  {
    m := map[];
    var i := 0;
    while i < |data|
      invariant 0 <= i <= |data|
      invariant m == Level1Map(data[..i])
    {
      assert data[..i + 1][..i] == data[..i];
      m := m[data[i].name := data[i]];
      i := i + 1;
    }
    assert data[..i] == data;
  }

  // ---------------------------------------------------------------------
  // The category written for one item, and the items tried.
  // ---------------------------------------------------------------------

  /** `level2.icon || 'fa-folder'`. */
  function Level2Icon(icon: string): (r: string)
    ensures r != ""
    ensures icon != "" ==> r == icon
  {
    if icon == "" then DefaultLevel2Icon else icon
  }

  /** The category document built for `item` of `l2` under the level-1 record `l1`. */
  function CategoryOf(l1: Level1, l2: Level2Record, item: string): Category {
    var l2Slug := GenerateSlug(l2.name);
    Category(
      l1,
      Level2(l2.name, l2Slug, Level2Icon(l2.icon)),
      Level3(item, l1.slug + "-" + l2Slug + "-" + GenerateSlug(item),
             GenerateDimensions(item, l2.name), GeneratePriceRanges(item, l2.name)))
  }

  /** One item to import, with the level-1 record and level-2 record it belongs to. */
  datatype ImportEntry = ImportEntry(level1: Level1, level2: Level2Record, item: string)

  function CategoryOfEntry(e: ImportEntry): Category {
    CategoryOf(e.level1, e.level2, e.item)
  }

  /** The non-empty items of one level 2, in order (`if (!item) continue`). */
  function ItemEntries(l1: Level1, l2: Level2Record, items: seq<string>): seq<ImportEntry>
    decreases |items|
  {
    if items == [] then []
    else
      var n := |items| - 1;
      ItemEntries(l1, l2, items[..n]) + (if items[n] == "" then [] else [ImportEntry(l1, l2, items[n])])
  }

  /** A level-2 entry that is present, named, and has an items array. */
  predicate UsableLevel2(e: Option<Level2Record>) {
    e.Some? && e.value.name != "" && e.value.items.Some?
  }

  function Level2Entries(l1: Level1, l2s: seq<Option<Level2Record>>): seq<ImportEntry>
    decreases |l2s|
  {
    if l2s == [] then []
    else
      var n := |l2s| - 1;
      Level2Entries(l1, l2s[..n])
        + (if UsableLevel2(l2s[n]) then ItemEntries(l1, l2s[n].value, l2s[n].value.items.value) else [])
  }

  /** A file that is imported at all: JSON by name, readable, of a known level 1, with a categories array. */
  predicate UsableFile(m: map<string, Level1>, f: DirEntry) {
    && IsJsonFile(f)
    && f.content.Some?
    && f.content.value.level1.Some?
    && f.content.value.level1.value in m
    && f.content.value.categories.Some?
  }

  function FileEntries(m: map<string, Level1>, f: DirEntry): seq<ImportEntry> {
    if UsableFile(m, f) then Level2Entries(m[f.content.value.level1.value], f.content.value.categories.value)
    else []
  }

  /** Every item `importCategories` tries to create, in the order it tries them. */
  function Entries(m: map<string, Level1>, files: seq<DirEntry>): seq<ImportEntry>
    decreases |files|
  {
    if files == [] then []
    else
      var n := |files| - 1;
      Entries(m, files[..n]) + FileEntries(m, files[n])
  }

  /** The category documents of `es`, in order. */
  function CategoriesOf(es: seq<ImportEntry>): (r: seq<Category>)
    ensures |r| == |es|
  {
    seq(|es|, i requires 0 <= i < |es| => CategoryOfEntry(es[i]))
  }

  /** The JSON files that cannot be read or parsed; each counts one error. */
  function FileErrors(files: seq<DirEntry>): nat
    decreases |files|
  {
    if files == [] then 0
    else
      var n := |files| - 1;
      FileErrors(files[..n]) + (if IsJsonFile(files[n]) && files[n].content.None? then 1 else 0)
  }

  // ---------------------------------------------------------------------
  // The skip rules, stated independently of the loops.
  // ---------------------------------------------------------------------

  /** `e` is one non-empty item of `l2`. */
  predicate FromItems(l1: Level1, l2: Level2Record, items: seq<string>, e: ImportEntry) {
    exists k :: 0 <= k < |items| && items[k] != "" && e == ImportEntry(l1, l2, items[k])
  }

  /** `e` is one non-empty item of a usable level 2 of `l2s`. */
  predicate FromLevel2s(l1: Level1, l2s: seq<Option<Level2Record>>, e: ImportEntry) {
    exists j :: 0 <= j < |l2s| && UsableLevel2(l2s[j]) && FromItems(l1, l2s[j].value, l2s[j].value.items.value, e)
  }

  /** `e` is tried for file `f`. */
  predicate FromFile(m: map<string, Level1>, f: DirEntry, e: ImportEntry) {
    UsableFile(m, f) && FromLevel2s(m[f.content.value.level1.value], f.content.value.categories.value, e)
  }

  /** `e` is tried for one of `files`. */
  predicate FromFiles(m: map<string, Level1>, files: seq<DirEntry>, e: ImportEntry) {
    exists i :: 0 <= i < |files| && FromFile(m, files[i], e)
  }

  lemma {:induction false} ItemEntriesMembership(l1: Level1, l2: Level2Record, items: seq<string>, e: ImportEntry)
    ensures e in ItemEntries(l1, l2, items) <==> FromItems(l1, l2, items, e)
    decreases |items|
  {
    if items != [] {
      var n := |items| - 1;
      ItemEntriesMembership(l1, l2, items[..n], e);
      if FromItems(l1, l2, items, e) {
        var k :| 0 <= k < |items| && items[k] != "" && e == ImportEntry(l1, l2, items[k]);
        if k < n {
          assert items[..n][k] == items[k];
        }
      }
      if FromItems(l1, l2, items[..n], e) {
        var k :| 0 <= k < n && items[..n][k] != "" && e == ImportEntry(l1, l2, items[..n][k]);
        assert items[k] == items[..n][k];
      }
    }
  }

  lemma {:induction false} Level2EntriesMembership(l1: Level1, l2s: seq<Option<Level2Record>>, e: ImportEntry)
    ensures e in Level2Entries(l1, l2s) <==> FromLevel2s(l1, l2s, e)
    decreases |l2s|
  {
    if l2s != [] {
      var n := |l2s| - 1;
      Level2EntriesMembership(l1, l2s[..n], e);
      if UsableLevel2(l2s[n]) {
        ItemEntriesMembership(l1, l2s[n].value, l2s[n].value.items.value, e);
      }
      if FromLevel2s(l1, l2s, e) {
        var j :| 0 <= j < |l2s| && UsableLevel2(l2s[j]) && FromItems(l1, l2s[j].value, l2s[j].value.items.value, e);
        if j < n {
          assert l2s[..n][j] == l2s[j];
        }
      }
      if FromLevel2s(l1, l2s[..n], e) {
        var j :| 0 <= j < n && UsableLevel2(l2s[..n][j]) && FromItems(l1, l2s[..n][j].value, l2s[..n][j].value.items.value, e);
        assert l2s[j] == l2s[..n][j];
      }
    }
  }

  /**
   * The skip rules: an item is tried exactly when it is a non-empty item of
   * a named level 2 with an items array, in a readable `.json` file whose
   * level 1 is known and which has a categories array.
   */
  lemma {:induction false} EntriesMembership(m: map<string, Level1>, files: seq<DirEntry>, e: ImportEntry)
    ensures e in Entries(m, files) <==> FromFiles(m, files, e)
    decreases |files|
  {
    if files != [] {
      var n := |files| - 1;
      EntriesMembership(m, files[..n], e);
      if UsableFile(m, files[n]) {
        var f := files[n].content.value;
        Level2EntriesMembership(m[f.level1.value], f.categories.value, e);
      }
      FilesSplit(m, files, e);
    }
  }

  lemma FilesSplit(m: map<string, Level1>, files: seq<DirEntry>, e: ImportEntry)
    requires files != []
    ensures FromFiles(m, files, e) <==> FromFiles(m, files[..|files| - 1], e) || FromFile(m, files[|files| - 1], e)
  {
    var n := |files| - 1;
    if exists i :: 0 <= i < |files| && FromFile(m, files[i], e) {
      var i :| 0 <= i < |files| && FromFile(m, files[i], e);
      if i < n {
        assert files[..n][i] == files[i];
      }
    }
    if exists i :: 0 <= i < n && FromFile(m, files[..n][i], e) {
      var i :| 0 <= i < n && FromFile(m, files[..n][i], e);
      assert files[i] == files[..n][i];
    }
  }

  /** What every tried item looks like: a non-empty item of a named level 2 under a known level 1. */
  lemma TriedEntryFields(m: map<string, Level1>, files: seq<DirEntry>, e: ImportEntry)
    requires e in Entries(m, files)
    ensures e.item != "" && e.level2.name != ""
    ensures exists name :: name in m && m[name] == e.level1
    ensures CategoryOfEntry(e).level2.icon != ""
    ensures CategoryOfEntry(e).HasRequired() <==> e.level1.name != "" && e.level1.slug != ""
  {
    EntriesMembership(m, files, e);
    var i :| 0 <= i < |files| && FromFile(m, files[i], e);
    var f := files[i].content.value;
    var l2s := f.categories.value;
    var j :| 0 <= j < |l2s| && UsableLevel2(l2s[j]) && FromItems(m[f.level1.value], l2s[j].value, l2s[j].value.items.value, e);
  }

  /**
   * Two items of the same level 2 under level-1 records with the same slug
   * get the same level-3 slug exactly when their own slugs agree, so two
   * items that only differ in characters the slug drops collide.
   */
  lemma ImportSlugCollision(l1: Level1, l1b: Level1, l2: Level2Record, a: string, b: string)
    requires l1.slug == l1b.slug
    ensures CategoryOf(l1, l2, a).level3.slug == CategoryOf(l1b, l2, b).level3.slug <==> GenerateSlug(a) == GenerateSlug(b)
  {
    var p := l1.slug + "-" + GenerateSlug(l2.name) + "-";
    assert CategoryOf(l1, l2, a).level3.slug == p + GenerateSlug(a);
    assert CategoryOf(l1b, l2, b).level3.slug == p + GenerateSlug(b);
    if p + GenerateSlug(a) == p + GenerateSlug(b) {
      assert (p + GenerateSlug(a))[|p|..] == GenerateSlug(a);
      assert (p + GenerateSlug(b))[|p|..] == GenerateSlug(b);
    }
  }

  // ---------------------------------------------------------------------
  // importCategories: the loops and their counters.
  // ---------------------------------------------------------------------

  lemma CategoriesOfAppend(a: seq<ImportEntry>, b: seq<ImportEntry>)
    ensures CategoriesOf(a + b) == CategoriesOf(a) + CategoriesOf(b)
  {
    var l, r := CategoriesOf(a + b), CategoriesOf(a) + CategoriesOf(b);
    forall i | 0 <= i < |l| ensures l[i] == r[i] {
      if i < |a| {
        assert (a + b)[i] == a[i];
      } else {
        assert (a + b)[i] == b[i - |a|];
      }
    }
  }

  /** Creating the categories of `a`, then those of `b`, is creating those of `a + b`. */
  lemma CreateEntriesAppend(cats: seq<Category>, a: seq<ImportEntry>, b: seq<ImportEntry>)
    ensures CreateAll(CreateAll(cats, CategoriesOf(a)), CategoriesOf(b)) == CreateAll(cats, CategoriesOf(a + b))
  {
    CategoriesOfAppend(a, b);
    CreateAllAppend(cats, CategoriesOf(a), CategoriesOf(b));
  }

  /** Creating the categories of `done + [e]` is creating those of `done`, then the category of `e`. */
  lemma CreateEntriesPush(cats: seq<Category>, done: seq<ImportEntry>, e: ImportEntry)
    ensures CreateAll(cats, CategoriesOf(done + [e])) == AfterCreate(CreateAll(cats, CategoriesOf(done)), CategoryOfEntry(e))
  {
    CategoriesOfAppend(done, [e]);
    assert CategoriesOf([e]) == [CategoryOfEntry(e)];
    CreateAllPush(cats, CategoriesOf(done), CategoryOfEntry(e));
  }

  /** One more item: it is appended unless it is empty. */
  lemma ItemEntriesStep(l1: Level1, l2: Level2Record, items: seq<string>, k: nat)
    requires k < |items|
    ensures ItemEntries(l1, l2, items[..k + 1])
         == ItemEntries(l1, l2, items[..k]) + (if items[k] == "" then [] else [ImportEntry(l1, l2, items[k])])
  {
    assert items[..k + 1][..k] == items[..k];
  }

  /** The collection and the number of tries after one more item of the innermost loop. */
  lemma ItemStepState(start: seq<Category>, l1: Level1, l2: Level2Record, items: seq<string>, k: nat)
    requires k < |items|
    ensures items[k] == "" ==>
      CreateAll(start, CategoriesOf(ItemEntries(l1, l2, items[..k + 1])))
        == CreateAll(start, CategoriesOf(ItemEntries(l1, l2, items[..k])))
    ensures items[k] != "" ==>
      CreateAll(start, CategoriesOf(ItemEntries(l1, l2, items[..k + 1])))
        == AfterCreate(CreateAll(start, CategoriesOf(ItemEntries(l1, l2, items[..k]))), CategoryOf(l1, l2, items[k]))
    ensures |ItemEntries(l1, l2, items[..k + 1])| == |ItemEntries(l1, l2, items[..k])| + (if items[k] == "" then 0 else 1)
  {
    var done := ItemEntries(l1, l2, items[..k]);
    var next := ItemEntries(l1, l2, items[..k + 1]);
    ItemEntriesStep(l1, l2, items, k);
    if items[k] == "" {
      assert next == done;
    } else {
      var e := ImportEntry(l1, l2, items[k]);
      assert next == done + [e];
      CreateEntriesPush(start, done, e);
      assert CategoryOfEntry(e) == CategoryOf(l1, l2, items[k]);
    }
  }

  /** One more file: its entries follow those of the files before it, and so does its error. */
  lemma EntriesStep(m: map<string, Level1>, files: seq<DirEntry>, i: nat)
    requires i < |files|
    ensures Entries(m, files[..i + 1]) == Entries(m, files[..i]) + FileEntries(m, files[i])
    ensures FileErrors(files[..i + 1]) == FileErrors(files[..i]) + (if IsJsonFile(files[i]) && files[i].content.None? then 1 else 0)
  {
    assert files[..i + 1][..i] == files[..i];
  }

  /** The collection and the counts after one more file of the outer loop. */
  lemma FileStepState(m: map<string, Level1>, files: seq<DirEntry>, i: nat)
    requires i < |files|
    ensures CreateAll([], CategoriesOf(Entries(m, files[..i + 1])))
         == CreateAll(CreateAll([], CategoriesOf(Entries(m, files[..i]))), CategoriesOf(FileEntries(m, files[i])))
    ensures |Entries(m, files[..i + 1])| == |Entries(m, files[..i])| + |FileEntries(m, files[i])|
    ensures FileErrors(files[..i + 1]) == FileErrors(files[..i]) + (if IsJsonFile(files[i]) && files[i].content.None? then 1 else 0)
    ensures !UsableFile(m, files[i]) ==> FileEntries(m, files[i]) == []
  {
    EntriesStep(m, files, i);
    CreateEntriesAppend([], Entries(m, files[..i]), FileEntries(m, files[i]));
  }

  /** The collection and the number of tries after one more level 2 of the middle loop. */
  lemma Level2StepState(start: seq<Category>, l1: Level1, l2s: seq<Option<Level2Record>>, j: nat)
    requires j < |l2s|
    ensures UsableLevel2(l2s[j]) ==>
      && CreateAll(start, CategoriesOf(Level2Entries(l1, l2s[..j + 1])))
         == CreateAll(CreateAll(start, CategoriesOf(Level2Entries(l1, l2s[..j]))), CategoriesOf(ItemEntries(l1, l2s[j].value, l2s[j].value.items.value)))
      && |Level2Entries(l1, l2s[..j + 1])| == |Level2Entries(l1, l2s[..j])| + |ItemEntries(l1, l2s[j].value, l2s[j].value.items.value)|
    ensures !UsableLevel2(l2s[j]) ==> Level2Entries(l1, l2s[..j + 1]) == Level2Entries(l1, l2s[..j])
  {
    assert l2s[..j + 1][..j] == l2s[..j];
    if UsableLevel2(l2s[j]) {
      CreateEntriesAppend(start, Level2Entries(l1, l2s[..j]), ItemEntries(l1, l2s[j].value, l2s[j].value.items.value));
    }
  }

  /** One item of the innermost loop: a non-empty item is created, and counted as created or failed. */
  method ImportItem(store: CategoryStore, l1: Level1, l2: Level2Record, items: seq<string>, k: nat, ghost start: seq<Category>)
      returns (created: nat, failed: nat)
    requires k < |items|
    requires store.Valid()
    requires store.cats == CreateAll(start, CategoriesOf(ItemEntries(l1, l2, items[..k])))
    modifies store
    ensures store.Valid()
    ensures store.cats == CreateAll(start, CategoriesOf(ItemEntries(l1, l2, items[..k + 1])))
    ensures |store.cats| == |old(store.cats)| + created
    ensures |ItemEntries(l1, l2, items[..k + 1])| == |ItemEntries(l1, l2, items[..k])| + created + failed
  {
    ItemStepState(start, l1, l2, items, k);
    created, failed := 0, 0;
    if items[k] != "" {
      var outcome := store.Create(CategoryOf(l1, l2, items[k]));
      if outcome == Created {
        created := 1;
      } else {
        failed := 1;
      }
    }
  }

  /** The innermost loop: create each non-empty item, counting successes and failures. */
  method ImportItems(store: CategoryStore, l1: Level1, l2: Level2Record, items: seq<string>)
      returns (created: nat, failed: nat)
    requires store.Valid()
    modifies store
    ensures store.Valid()
    ensures store.cats == CreateAll(old(store.cats), CategoriesOf(ItemEntries(l1, l2, items)))
    ensures |store.cats| == |old(store.cats)| + created
    ensures created + failed == |ItemEntries(l1, l2, items)|
  {
    ghost var start := store.cats;
    created, failed := 0, 0;
    var k := 0;
    while k < |items|
      invariant 0 <= k <= |items|
      invariant store.Valid()
      invariant store.cats == CreateAll(start, CategoriesOf(ItemEntries(l1, l2, items[..k])))
      invariant |store.cats| == |start| + created
      invariant created + failed == |ItemEntries(l1, l2, items[..k])|
    {
      var c, f := ImportItem(store, l1, l2, items, k, start);
      created, failed := created + c, failed + f;
      k := k + 1;
    }
    assert items[..k] == items;
  }

  /** One level 2 of the middle loop: its items are imported when it is usable. */
  method ImportLevel2(store: CategoryStore, l1: Level1, l2s: seq<Option<Level2Record>>, j: nat, ghost start: seq<Category>)
      returns (created: nat, failed: nat)
    requires j < |l2s|
    requires store.Valid()
    requires store.cats == CreateAll(start, CategoriesOf(Level2Entries(l1, l2s[..j])))
    modifies store
    ensures store.Valid()
    ensures store.cats == CreateAll(start, CategoriesOf(Level2Entries(l1, l2s[..j + 1])))
    ensures |store.cats| == |old(store.cats)| + created
    ensures |Level2Entries(l1, l2s[..j + 1])| == |Level2Entries(l1, l2s[..j])| + created + failed
  {
    Level2StepState(start, l1, l2s, j);
    var entry := l2s[j];
    created, failed := 0, 0;
    if UsableLevel2(entry) {
      created, failed := ImportItems(store, l1, entry.value, entry.value.items.value);
    }
  }

  /** The level-2 loop: skip an absent or unnamed level 2 and one without an items array. */
  method ImportLevel2s(store: CategoryStore, l1: Level1, l2s: seq<Option<Level2Record>>)
      returns (created: nat, failed: nat)
    requires store.Valid()
    modifies store
    ensures store.Valid()
    ensures store.cats == CreateAll(old(store.cats), CategoriesOf(Level2Entries(l1, l2s)))
    ensures |store.cats| == |old(store.cats)| + created
    ensures created + failed == |Level2Entries(l1, l2s)|
  {
    ghost var start := store.cats;
    created, failed := 0, 0;
    var j := 0;
    while j < |l2s|
      invariant 0 <= j <= |l2s|
      invariant store.Valid()
      invariant store.cats == CreateAll(start, CategoriesOf(Level2Entries(l1, l2s[..j])))
      invariant |store.cats| == |start| + created
      invariant created + failed == |Level2Entries(l1, l2s[..j])|
    {
      var c, f := ImportLevel2(store, l1, l2s, j, start);
      created, failed := created + c, failed + f;
      j := j + 1;
    }
    assert l2s[..j] == l2s;
  }

  /**
   * The body of the file loop: skip a non-JSON name; count one error for an
   * unreadable file; skip a file of unknown level 1 or without a categories
   * array; otherwise import its level 2s.
   */
  method ImportFile(store: CategoryStore, m: map<string, Level1>, file: DirEntry)
      returns (created: nat, failed: nat, fileError: nat)
    requires store.Valid()
    modifies store
    ensures store.Valid()
    ensures store.cats == CreateAll(old(store.cats), CategoriesOf(FileEntries(m, file)))
    ensures |store.cats| == |old(store.cats)| + created
    ensures created + failed == |FileEntries(m, file)|
    ensures fileError == if IsJsonFile(file) && file.content.None? then 1 else 0
  {
    created, failed, fileError := 0, 0, 0;
    if EndsWith(file.fileName, ".json") {
      if file.content.None? {
        fileError := 1;
      } else {
        var data := file.content.value;
        if data.level1.Some? && data.level1.value in m && data.categories.Some? {
          created, failed := ImportLevel2s(store, m[data.level1.value], data.categories.value);
        }
      }
    }
  }

  /**
   * `importCategories`: empty the collection, build the level-1 map, then
   * import every usable file. The collection ends up as the tried
   * categories created in order; `totalCategories` is its size, and every
   * tried item that was not created and every unreadable JSON file counts
   * one error.
   */
  method ImportAll(store: CategoryStore, level1Data: seq<Level1>, files: seq<DirEntry>)
      returns (totalCategories: nat, errorCount: nat)
    modifies store
    ensures store.Valid()
    ensures store.cats == CreateAll([], CategoriesOf(Entries(Level1Map(level1Data), files)))
    ensures totalCategories == |store.cats|
    ensures totalCategories + errorCount == |Entries(Level1Map(level1Data), files)| + FileErrors(files)
  {
    store.DeleteAll();
    var m := BuildLevel1Map(level1Data);
    totalCategories, errorCount := 0, 0;
    var i := 0;
    while i < |files|
      invariant 0 <= i <= |files|
      invariant store.Valid()
      invariant store.cats == CreateAll([], CategoriesOf(Entries(m, files[..i])))
      invariant totalCategories == |store.cats|
      invariant totalCategories + errorCount == |Entries(m, files[..i])| + FileErrors(files[..i])
    {
      FileStepState(m, files, i);
      var created, failed, fileError := ImportFile(store, m, files[i]);
      totalCategories, errorCount := totalCategories + created, errorCount + failed + fileError;
      i := i + 1;
    }
    assert files[..i] == files;
  }
}
