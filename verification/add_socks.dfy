/**
 * scripts/add-socks.js: add a fixed table of sock categories under the
 * 服饰内衣 level 1, skipping names that already exist.
 */
module AddSocks {
  import opened Wrappers
  import opened Slugs
  import opened CategoryModel
  import opened AddMoreCategories

  const SockLevel1Name: string := "服饰内衣"

  /** The level 1 used when no stored category has the 服饰内衣 level 1. */
  const FallbackSockLevel1: Level1 := Level1("服饰内衣", "clothing", "fa-tshirt", Both)

  /** The level 1 of the first stored 服饰内衣 category, or the fallback. */
  function SocksLevel1(cats: seq<Category>): (l1: Level1)
    ensures l1.name == SockLevel1Name
    ensures FirstWithLevel1(cats, SockLevel1Name).None? ==> l1 == FallbackSockLevel1
  {
    match FirstWithLevel1(cats, SockLevel1Name)
    case None => FallbackSockLevel1
    case Some(sample) => sample.level1
  }

  datatype SockGroup = SockGroup(level2: string, items: seq<string>)

  const SocksData: seq<SockGroup> := [
    SockGroup("男士袜子", [
      "男士商务袜", "男士运动袜", "男士休闲袜", "男士船袜", "男士中筒袜",
      "男士长筒袜", "男士短袜", "男士隐形袜", "男士羊毛袜", "男士棉袜",
      "男士绅士袜", "男士正装袜", "男士篮球袜", "男士登山袜", "男士功能袜"]),
    SockGroup("女士袜子", [
      "女士船袜", "女士短袜", "女士中筒袜", "女士长筒袜", "女士过膝袜",
      "女士隐形袜", "女士丝袜", "女士棉袜", "女士羊毛袜", "女士运动袜",
      "女士堆堆袜", "女士蕾丝袜", "女士网眼袜", "女士连裤袜", "女士及膝袜"]),
    SockGroup("功能袜", [
      "压力袜", "静脉曲张袜", "瘦腿袜", "运动压缩袜", "登山袜",
      "跑步袜", "篮球袜", "足球袜", "瑜伽袜", "舞蹈袜",
      "滑雪袜", "徒步袜", "骑行袜", "健身袜", "马拉松袜"]),
    SockGroup("材质袜", [
      "纯棉袜", "羊毛袜", "羊绒袜", "竹纤维袜", "真丝袜",
      "冰丝袜", "抗菌袜", "防臭袜", "吸汗袜", "发热袜",
      "精梳棉袜", "长绒棉袜", "美丽诺羊毛袜", "驼绒袜", "蚕丝袜"]),
    SockGroup("儿童袜", [
      "婴儿袜", "幼儿袜", "童袜", "宝宝袜", "新生儿袜",
      "儿童棉袜", "儿童羊毛袜", "儿童运动袜", "儿童短袜", "儿童中筒袜",
      "儿童长筒袜", "儿童防滑袜", "儿童地板袜", "儿童学步袜", "儿童连裤袜"])
  ]

  /** Every sock gets the same six dimensions; unlike the add-more table, 最耐用 is not among them. */
  const SockDimensions: seq<Dimension> := [
    Dimension("质量最好", 10), Dimension("性价比最高", 9), Dimension("最舒适", 10),
    Dimension("最耐穿", 9), Dimension("透气最好", 8), Dimension("防臭最好", 7)]

  lemma SockTables()
    ensures |SockDimensions| == 6 && DistinctNames(SockDimensions)
    ensures ContiguousBands(SockBands)
    ensures |SocksData| == 5 && forall g :: g in SocksData ==> |g.items| == 15
  {
  }

  /** The document built for one item; its slug is level-1 slug, level-2 slug and item slug joined by hyphens. */
  function SockCategory(l1: Level1, level2: string, item: string): (c: Category)
    ensures c.level3.name == item && c.level1 == l1
    ensures c.level3.slug == ItemSlug(l1.slug, level2, item)
  {
    Category(l1, Level2(level2, GenerateSlug(level2), "fa-socks"),
             Level3(item, l1.slug + "-" + GenerateSlug(level2) + "-" + GenerateSlug(item), SockDimensions, SockBands))
  }

  /** Two different all-CJK sock items of one level 2 never collide on the slug index. */
  lemma SockSlugsDistinct(l1: Level1, level2: string, a: string, b: string)
    requires AllCjk(a) && AllCjk(b) && a != [] && b != [] && a != b
    ensures SockCategory(l1, level2, a).level3.slug != SockCategory(l1, level2, b).level3.slug
  {
    ItemSlugsDistinct(l1.slug, level2, a, b);
  }

  function GroupCategories(l1: Level1, g: SockGroup): (cs: seq<Category>)
    ensures |cs| == |g.items|
    ensures forall i :: 0 <= i < |g.items| ==> cs[i] == SockCategory(l1, g.level2, g.items[i])
  {
    seq(|g.items|, i requires 0 <= i < |g.items| => SockCategory(l1, g.level2, g.items[i]))
  }

  /** The documents tried, group by group and item by item. */
  function SockCategories(l1: Level1, groups: seq<SockGroup>): seq<Category>
    decreases |groups|
  {
    if groups == [] then []
    else SockCategories(l1, groups[..|groups| - 1]) + GroupCategories(l1, groups[|groups| - 1])
  }

  /** Every tried document has the chosen level 1. */
  lemma {:induction false} SockCategoriesLevel1(l1: Level1, groups: seq<SockGroup>)
    ensures forall c :: c in SockCategories(l1, groups) ==> c.level1 == l1
    decreases |groups|
  {
    if groups != [] {
      SockCategoriesLevel1(l1, groups[..|groups| - 1]);
    }
  }

  /** `addSocks`: the counters start at zero. */
  function AddSocksRun(cats: seq<Category>): AddState {
    TryAddAll(AddState(cats, 0, 0), SockCategories(SocksLevel1(cats), SocksData))
  }

  /** The run keeps the indexes unique, only appends, and counts every appended document as added. */
  lemma AddSocksGrows(cats: seq<Category>)
    requires UniqueLevel3(cats)
    ensures UniqueLevel3(AddSocksRun(cats).cats)
    ensures Grows(AddState(cats, 0, 0), AddSocksRun(cats))
  {
    TryAddAllGrows(AddState(cats, 0, 0), SockCategories(SocksLevel1(cats), SocksData));
  }

  /**
   * After attempts at documents that all carry level 1 `l1`, the level-1
   * lookup still finds what it found before, or, if it found nothing
   * before, a document with level 1 `l1`.
   */
  lemma LookupAfterAttempts(st: AddState, cs: seq<Category>, name: string, l1: Level1)
    requires UniqueLevel3(st.cats)
    requires forall c :: c in cs ==> c.level1 == l1
    ensures var before := FirstWithLevel1(st.cats, name);
      var after := FirstWithLevel1(TryAddAll(st, cs).cats, name);
      after == before || (before.None? && after.Some? && after.value.level1 == l1)
  {
    var cats := TryAddAll(st, cs).cats;
    TryAddAllGrows(st, cs);
    var more := cats[|st.cats|..];
    assert cats == st.cats + more;
    FirstWithLevel1Append(st.cats, more, name);
    var found := FirstWithLevel1(more, name);
    if found.Some? {
      var i :| 0 <= i < |more| && more[i] == found.value;
      assert cats[|st.cats| + i] in cs;
    }
  }

  /** The run does not change which level 1 the next run picks. */
  lemma SocksLevel1Stable(cats: seq<Category>)
    requires UniqueLevel3(cats)
    ensures SocksLevel1(AddSocksRun(cats).cats) == SocksLevel1(cats)
  {
    var l1 := SocksLevel1(cats);
    SockCategoriesLevel1(l1, SocksData);
    LookupAfterAttempts(AddState(cats, 0, 0), SockCategories(l1, SocksData), SockLevel1Name, l1);
  }

  /** Running the script a second time writes nothing and reports nothing added. */
  lemma AddSocksTwice(cats: seq<Category>)
    requires UniqueLevel3(cats)
    ensures AddSocksRun(AddSocksRun(cats).cats).cats == AddSocksRun(cats).cats
    ensures AddSocksRun(AddSocksRun(cats).cats).added == 0
  {
    var r := AddSocksRun(cats);
    SocksLevel1Stable(cats);
    var cs := SockCategories(SocksLevel1(cats), SocksData);
    TryAddAllTwice(AddState(cats, 0, 0), cs, AddState(r.cats, 0, 0));
  }

  // ---------------------------------------------------------------------
  // The loops.
  // ---------------------------------------------------------------------

  /** One item: `findOne` on the name, then `create` in a try block. */
  method AddSockItem(store: CategoryStore, c: Category, added: nat, skipped: nat) returns (added': nat, skipped': nat)
    requires store.Valid()
    modifies store
    ensures store.Valid()
    ensures AddState(store.cats, added', skipped') == TryAdd(AddState(old(store.cats), added, skipped), c)
  {
    added', skipped' := added, skipped;
    var exists_ := store.HasLevel3Name(c.level3.name);
    if exists_ {
      skipped' := skipped' + 1;
      return;
    }
    var outcome := store.Create(c);
    if outcome == Created {
      added' := added' + 1;
    } else if outcome == DuplicateKey {
      skipped' := skipped' + 1;
    }
  }

  lemma TryAddAllStep(st: AddState, done: seq<Category>, cs: seq<Category>, k: nat)
    requires k < |cs|
    ensures TryAddAll(st, done + cs[..k + 1]) == TryAdd(TryAddAll(st, done + cs[..k]), cs[k])
  {
    assert (done + cs[..k + 1])[..|done + cs[..k + 1]| - 1] == done + cs[..k];
  }

  method AddSockGroup(store: CategoryStore, l1: Level1, g: SockGroup, ghost st: AddState, ghost done: seq<Category>,
                      added: nat, skipped: nat)
      returns (added': nat, skipped': nat)
    requires store.Valid()
    requires AddState(store.cats, added, skipped) == TryAddAll(st, done)
    modifies store
    ensures store.Valid()
    ensures AddState(store.cats, added', skipped') == TryAddAll(st, done + GroupCategories(l1, g))
  {
    ghost var cs := GroupCategories(l1, g);
    added', skipped' := added, skipped;
    var level2Slug := GenerateSlug(g.level2);
    var k := 0;
    PrefixEnds(done, cs);
    while k < |g.items|
      invariant 0 <= k <= |g.items|
      invariant store.Valid()
      invariant AddState(store.cats, added', skipped') == TryAddAll(st, done + cs[..k])
    {
      added', skipped' := AddSockGroupItem(store, l1, g, level2Slug, k, st, done, added', skipped');
      k := k + 1;
    }
  }

  lemma PrefixEnds(done: seq<Category>, cs: seq<Category>)
    ensures done + cs[..0] == done && done + cs[..|cs|] == done + cs
  {
    assert cs[..|cs|] == cs;
  }

  /** The body of the inner loop: the `k`-th item of the group. */
  method AddSockGroupItem(store: CategoryStore, l1: Level1, g: SockGroup, level2Slug: string, k: nat,
                          ghost st: AddState, ghost done: seq<Category>, added: nat, skipped: nat)
      returns (added': nat, skipped': nat)
    requires store.Valid() && k < |g.items| && level2Slug == GenerateSlug(g.level2)
    requires AddState(store.cats, added, skipped) == TryAddAll(st, done + GroupCategories(l1, g)[..k])
    modifies store
    ensures store.Valid()
    ensures AddState(store.cats, added', skipped') == TryAddAll(st, done + GroupCategories(l1, g)[..k + 1])
  {
    TryAddAllStep(st, done, GroupCategories(l1, g), k);
    var item := g.items[k];
    var c := Category(l1, Level2(g.level2, level2Slug, "fa-socks"),
                      Level3(item, l1.slug + "-" + level2Slug + "-" + GenerateSlug(item), SockDimensions, SockBands));
    assert c == GroupCategories(l1, g)[k];
    added', skipped' := AddSockItem(store, c, added, skipped);
  }

  lemma SockCategoriesStep(l1: Level1, groups: seq<SockGroup>, g: nat)
    requires g < |groups|
    ensures SockCategories(l1, groups[..g + 1]) == SockCategories(l1, groups[..g]) + GroupCategories(l1, groups[g])
  {
    assert groups[..g + 1][..g] == groups[..g];
  }

  /** The outer loop of `addSocks`, over the groups in order. */
  method AddSockGroups(store: CategoryStore, level1: Level1, groups: seq<SockGroup>) returns (added: nat, skipped: nat)
    requires store.Valid()
    modifies store
    ensures store.Valid()
    ensures AddState(store.cats, added, skipped) == TryAddAll(AddState(old(store.cats), 0, 0), SockCategories(level1, groups))
  {
    ghost var st := AddState(store.cats, 0, 0);
    added, skipped := 0, 0;
    var g := 0;
    while g < |groups|
      invariant 0 <= g <= |groups|
      invariant store.Valid()
      invariant AddState(store.cats, added, skipped) == TryAddAll(st, SockCategories(level1, groups[..g]))
    {
      SockCategoriesStep(level1, groups, g);
      added, skipped := AddSockGroup(store, level1, groups[g], st, SockCategories(level1, groups[..g]), added, skipped);
      g := g + 1;
    }
    assert groups[..g] == groups;
  }

  /** `addSocks`: the collection and counters end up as `AddSocksRun` computes them. */
  method AddSocksScript(store: CategoryStore) returns (added: nat, skipped: nat)
    requires store.Valid()
    modifies store
    ensures store.Valid()
    ensures AddState(store.cats, added, skipped) == AddSocksRun(old(store.cats))
  {
    var sample := FirstWithLevel1(store.cats, SockLevel1Name);
    var level1 := if sample.None? then FallbackSockLevel1 else sample.value.level1;
    added, skipped := AddSockGroups(store, level1, SocksData);
  }
}
