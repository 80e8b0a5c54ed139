/**
 * scripts/generate-mass-categories.js: top the collection up towards a
 * target count with generated level-2 and level-3 names.
 *
 * The random draws are parameters indexed by the position of the call that
 * makes them, so every call draws afresh: `level2Count(i)` is how many level
 * 2s the level 1 at index `i` gets, and `itemsOf(i)(j, level2Name, count)` is
 * what `generateItemsForLevel2` returns for the level 2 at index `j` of it.
 * The level-1 table is the `level1s` parameter.
 */
module MassCategories {
  import opened Wrappers
  import opened Text
  import opened Slugs
  import opened CategoryModel

  // ---------------------------------------------------------------------
  // generateLevel2Name(level1Name, index)
  // ---------------------------------------------------------------------

  const DigitalTypes: seq<string> := [
    "智能手机", "平板电脑", "笔记本电脑", "台式电脑", "显示器", "键盘", "鼠标", "耳机", "音响", "相机",
    "镜头", "无人机", "智能手表", "手环", "VR设备", "AR设备", "游戏机", "路由器", "交换机", "NAS",
    "移动硬盘", "U盘", "内存条", "固态硬盘", "显卡", "主板", "CPU", "电源", "机箱", "散热器"]
  const ClothingTypes: seq<string> := [
    "T恤", "衬衫", "裤子", "裙子", "外套", "羽绒服", "棉服", "风衣", "大衣", "毛衣",
    "卫衣", "内衣", "内裤", "袜子", "鞋子", "运动鞋", "皮鞋", "休闲鞋", "靴子", "凉鞋",
    "拖鞋", "帽子", "手套", "围巾", "腰带", "领带", "泳装", "睡衣", "家居服", "瑜伽服"]
  const HardwareTypes: seq<string> := [
    "螺丝刀", "扳手", "钳子", "锤子", "锯子", "锉刀", "电钻", "角磨机", "电锤", "电镐",
    "冲击钻", "手电钻", "螺丝", "螺母", "垫圈", "铆钉", "销", "挡圈", "轴承", "弹簧",
    "阀门", "管件", "接头", "法兰", "密封件", "液压工具", "气动工具", "电动工具", "手动工具", "测量工具"]

  /** `level2Types[level1Name]`: the three level 1s with a built-in list. */
  function KnownTypes(level1Name: string): Option<seq<string>> {
    if level1Name == "数码电子" then Some(DigitalTypes)
    else if level1Name == "服装鞋帽" then Some(ClothingTypes)
    else if level1Name == "五金工具" then Some(HardwareTypes)
    else None
  }

  const FallbackPrefixes: seq<string> := ["通用", "标准", "专业"]

  /** The fallback list built from the index: 通用{n}型, 标准{n}型, 专业{n}型 with n = index + 1. */
  function FallbackTypes(index: nat): (t: seq<string>)
    ensures |t| == 3
  {
    var n := NatToString(index + 1);
    [FallbackPrefixes[0] + (n + "型"), FallbackPrefixes[1] + (n + "型"), FallbackPrefixes[2] + (n + "型")]
  }

  function TypesFor(level1Name: string, index: nat): (t: seq<string>)
    ensures |t| > 0
  {
    match KnownTypes(level1Name)
    case Some(t) => t
    case None => FallbackTypes(index)
  }

  /**
   * The index-th name of the cyclic list; from the second lap on, the lap
   * number (counting from 1) is appended after a space.
   */
  function GenerateLevel2Name(level1Name: string, index: nat): string {
    var types := TypesFor(level1Name, index);
    types[index % |types|] + LapSuffix(index, |types|)
  }

  /** Strings of digits followed by strings starting with a non-digit split back into their parts. */
  lemma DigitsSplit(a: string, x: string, b: string, y: string)
    requires forall i :: 0 <= i < |a| ==> IsDigit(a[i])
    requires forall i :: 0 <= i < |b| ==> IsDigit(b[i])
    requires |x| > 0 && !IsDigit(x[0]) && |y| > 0 && !IsDigit(y[0])
    requires a + x == b + y
    ensures a == b && x == y
  {
    assert a == (a + x)[..|a|] && b == (b + y)[..|b|];
    assert x == (a + x)[|a|..] && y == (b + y)[|b|..];
  }

  /** The lap suffix: empty on the first lap, a space and the lap number after it. */
  function LapSuffix(index: nat, len: nat): string
    requires len > 0
  {
    if index >= len then " " + NatToString(index / len + 1) else ""
  }

  /** The fallback name of an index, written prefix, number, 型, lap suffix. */
  function FallbackName(index: nat): string {
    FallbackPrefixes[index % 3] + (NatToString(index + 1) + ("型" + LapSuffix(index, 3)))
  }

  lemma FallbackNameIsGenerated(level1Name: string, index: nat)
    requires KnownTypes(level1Name).None?
    ensures GenerateLevel2Name(level1Name, index) == FallbackName(index)
  {
    var n := NatToString(index + 1);
    assert TypesFor(level1Name, index) == FallbackTypes(index);
    assert FallbackTypes(index)[index % 3] == FallbackPrefixes[index % 3] + (n + "型");
  }

  lemma FallbackNameInjective(i: nat, j: nat)
    requires FallbackName(i) == FallbackName(j)
    ensures i == j
  {
    var p, q := FallbackPrefixes[i % 3], FallbackPrefixes[j % 3];
    var x, y := "型" + LapSuffix(i, 3), "型" + LapSuffix(j, 3);
    var ni, nj := NatToString(i + 1), NatToString(j + 1);
    assert FallbackName(i)[0] == p[0];
    assert FallbackName(j)[0] == q[0];
    assert i % 3 == j % 3;
    assert FallbackName(i)[2..] == ni + x;
    assert FallbackName(j)[2..] == nj + y;
    assert x[0] == '型' && y[0] == '型';
    DigitsSplit(ni, x, nj, y);
    NatToStringInjective(i + 1, j + 1);
  }

  /**
   * Under a level 1 without a built-in list every index gives a different
   * level-2 name, so the generated level 2s of such a level 1 never share a name.
   */
  lemma FallbackNamesDistinct(level1Name: string, i: nat, j: nat)
    requires KnownTypes(level1Name).None?
    requires i != j
    ensures GenerateLevel2Name(level1Name, i) != GenerateLevel2Name(level1Name, j)
  {
    FallbackNameIsGenerated(level1Name, i);
    FallbackNameIsGenerated(level1Name, j);
    if FallbackName(i) == FallbackName(j) {
      FallbackNameInjective(i, j);
    }
  }

  /** `iconMap[level1Name] || 'fa-folder'`: the level-2 name is not consulted. */
  function IconForLevel2(level1Name: string, level2Name: string): (icon: string)
    ensures icon == DefaultLevel2Icon <==> KnownTypes(level1Name).None?
  {
    if level1Name == "数码电子" then "fa-microchip"
    else if level1Name == "服装鞋帽" then "fa-tshirt"
    else if level1Name == "五金工具" then "fa-tools"
    else DefaultLevel2Icon
  }

  /** `generateLevel2ForLevel1` for a drawn count: name, slug and icon of each index in turn. */
  function Level2List(level1Name: string, count: nat): (l: seq<Level2>)
    ensures |l| == count
  {
    Tabulate(count, (i: nat) => Level2Entry(level1Name, i))
  }

  /** Entry `i` has the generated name for index `i`, that name's slug and a non-empty icon. */
  lemma Level2ListShape(level1Name: string, count: nat)
    ensures var l := Level2List(level1Name, count);
      && (forall i :: 0 <= i < count ==> l[i].name == GenerateLevel2Name(level1Name, i))
      && (forall i :: 0 <= i < count ==> l[i].slug == GenerateSlug(l[i].name) && l[i].icon != "")
  {
    var l := Level2List(level1Name, count);
    forall i | 0 <= i < count
      ensures l[i].name == GenerateLevel2Name(level1Name, i) && l[i].slug == GenerateSlug(l[i].name) && l[i].icon != ""
    {
      TabulateAt(count, (i: nat) => Level2Entry(level1Name, i), i);
      Level2EntryShape(level1Name, i);
    }
  }

  /** The values of `f` at 0, 1, ..., count - 1. */
  function Tabulate<T>(count: nat, f: nat -> T): (r: seq<T>)
    ensures |r| == count
  {
    if count == 0 then [] else Tabulate(count - 1, f) + [f(count - 1)]
  }

  lemma PrefixOfPrefix<T>(s: seq<T>, n: nat, i: nat)
    requires i <= n <= |s|
    ensures s[..n][..i] == s[..i] && s[..|s|] == s
  {
  }

  lemma {:induction false} TabulateAt<T>(count: nat, f: nat -> T, i: nat)
    requires i < count
    ensures Tabulate(count, f)[i] == f(i)
  {
    if i < count - 1 {
      TabulateAt(count - 1, f, i);
    }
  }

  function Level2Entry(level1Name: string, i: nat): Level2 {
    var name := GenerateLevel2Name(level1Name, i);
    Level2(name, GenerateSlug(name), IconForLevel2(level1Name, name))
  }

  lemma Level2EntryShape(level1Name: string, i: nat)
    ensures var e := Level2Entry(level1Name, i);
      e.name == GenerateLevel2Name(level1Name, i) && e.slug == GenerateSlug(e.name) && e.icon != ""
  {
    var name := GenerateLevel2Name(level1Name, i);
    var icon := IconForLevel2(level1Name, name);
    assert icon != "" by {
      if icon == DefaultLevel2Icon {
        assert DefaultLevel2Icon != "";
      }
    }
  }

  /** Under a level 1 without a built-in list, the drawn level 2s all have different names. */
  lemma FallbackLevel2sDistinct(level1Name: string, count: nat)
    requires KnownTypes(level1Name).None?
    ensures var l := Level2List(level1Name, count);
      forall i, j :: 0 <= i < j < count ==> l[i].name != l[j].name
  {
    var l := Level2List(level1Name, count);
    Level2ListShape(level1Name, count);
    forall i, j | 0 <= i < j < count ensures l[i].name != l[j].name {
      FallbackNamesDistinct(level1Name, i, j);
    }
  }

  /** The loop of `generateLevel2ForLevel1`, pushing one level 2 per index. */
  method GenerateLevel2ForLevel1(level1Name: string, count: nat) returns (level2List: seq<Level2>)
    ensures level2List == Level2List(level1Name, count)
  {
    level2List := [];
    var i := 0;
    while i < count
      invariant 0 <= i <= count
      invariant level2List == Level2List(level1Name, i)
    {
      Level2ListStep(level1Name, i);
      var name := GenerateLevel2Name(level1Name, i);
      level2List := level2List + [Level2(name, GenerateSlug(name), IconForLevel2(level1Name, name))];
      i := i + 1;
    }
  }

  lemma Level2ListStep(level1Name: string, i: nat)
    ensures Level2List(level1Name, i + 1) == Level2List(level1Name, i) + [Level2Entry(level1Name, i)]
  {
  }

  // ---------------------------------------------------------------------
  // generateDimensions / generatePriceRanges
  // ---------------------------------------------------------------------

  predicate IsScrew(item: string) { Includes(item, "螺丝") || Includes(item, "螺栓") }

  function MassDimensions(item: string): (d: seq<Dimension>)
    ensures |d| == (if IsScrew(item) || Includes(item, "工具") then 5 else 3)
    ensures DistinctNames(d)
    ensures d[..3] == QualityDimensions
  {
    if IsScrew(item) then QualityDimensions + [Dimension("强度最高", 10), Dimension("防锈最好", 9)]
    else if Includes(item, "工具") then QualityDimensions + [Dimension("最锋利", 10), Dimension("最顺手", 9)]
    else QualityDimensions
  }

  /** The price table does not depend on the item. */
  function MassPriceRanges(item: string): (r: seq<PriceRange>)
    ensures ContiguousBands(r)
    ensures r[0].name == "经济型" && r[3].name == "工业级"
  {
    GradeBands
  }

  // ---------------------------------------------------------------------
  // The quota arithmetic.
  // ---------------------------------------------------------------------

  /**
   * `Math.min(200, Math.ceil(remaining / levelsLeft))`: an even share of
   * what is still needed over the level 2s still to come, capped at 200.
   */
  function ItemsPerLevel2(remaining: int, levelsLeft: int): (n: int)
    requires remaining > 0 && levelsLeft > 0
    ensures 1 <= n <= 200
    ensures n <= remaining
    ensures n < 200 ==> (n - 1) * levelsLeft < remaining <= n * levelsLeft
  {
    var share := (remaining + levelsLeft - 1) / levelsLeft;
    CeilingShare(remaining, levelsLeft);
    if share < 200 then share else 200
  }

  lemma CeilingShare(remaining: int, levelsLeft: int)
    requires remaining > 0 && levelsLeft > 0
    ensures var q := (remaining + levelsLeft - 1) / levelsLeft;
      1 <= q <= remaining && (q - 1) * levelsLeft < remaining <= q * levelsLeft
  {
    var x := remaining + levelsLeft - 1;
    CeilingBounds(remaining, levelsLeft, x / levelsLeft, x % levelsLeft);
  }

  /** The bounds of a quotient, from the division equation alone. */
  lemma CeilingBounds(remaining: int, levelsLeft: int, q: int, r: int)
    requires remaining > 0 && levelsLeft > 0
    requires remaining + levelsLeft - 1 == q * levelsLeft + r && 0 <= r < levelsLeft
    ensures 1 <= q <= remaining && (q - 1) * levelsLeft < remaining <= q * levelsLeft
  {
    assert (q - 1) * levelsLeft == q * levelsLeft - levelsLeft;
    SignOfProduct(q, levelsLeft);
    SignOfProduct(q - 1 - remaining, levelsLeft);
    assert (q - 1 - remaining) * levelsLeft == (q - 1) * levelsLeft - remaining * levelsLeft;
    SignOfProduct(remaining - 1, levelsLeft);
    assert (remaining - 1) * levelsLeft == remaining * levelsLeft - levelsLeft;
  }

  lemma SignOfProduct(a: int, b: int)
    requires b > 0
    ensures a <= 0 ==> a * b <= 0
    ensures a >= 0 ==> a * b >= 0
  {
  }

  // ---------------------------------------------------------------------
  // generateMassCategories
  // ---------------------------------------------------------------------

  /** The collection, the `generated` counter, and whether a `create` threw and ended the run. */
  datatype MassState = MassState(cats: seq<Category>, generated: nat, aborted: bool)

  function MassCategory(l1: Level1, l2: Level2, item: string): Category {
    Category(l1, l2, Level3(item, l1.slug + "-" + l2.slug + "-" + GenerateSlug(item), MassDimensions(item), MassPriceRanges(item)))
  }

  /**
   * One item: after a failure nothing more happens; a used name is skipped;
   * once the quota is met nothing is created; a refused `create` throws
   * out of all the loops.
   */
  function MassItem(st: MassState, need: int, l1: Level1, l2: Level2, item: string): MassState {
    if st.aborted || item in Level3Names(st.cats) || st.generated >= need then st
    else
      var c := MassCategory(l1, l2, item);
      if CreateOutcomeOf(st.cats, c) == Created then MassState(st.cats + [c], st.generated + 1, false)
      else st.(aborted := true)
  }

  function MassItems(st: MassState, need: int, l1: Level1, l2: Level2, items: seq<string>): MassState
    decreases |items|
  {
    if items == [] then st
    else MassItem(MassItems(st, need, l1, l2, items[..|items| - 1]), need, l1, l2, items[|items| - 1])
  }

  /** `generateItemsForLevel2(level2.name, itemsPerLevel2)`: the oracle's draw without repeats. */
  function DrawnItems(st: MassState, need: int, l2s: seq<Level2>, j: nat, itemsOf: (nat, string, int) -> seq<string>): seq<string>
    requires j < |l2s| && st.generated < need
  {
    Dedup(itemsOf(j, l2s[j].name, ItemsPerLevel2(need - st.generated, |l2s| - j)))
  }

  /** The level 2 at index `j` of `l2s`: skipped once the quota is met, otherwise its share of items. */
  function MassLevel2(st: MassState, need: int, l1: Level1, l2s: seq<Level2>, j: nat,
                      itemsOf: (nat, string, int) -> seq<string>): MassState
    requires j < |l2s|
  {
    if st.aborted || st.generated >= need then st
    else MassItems(st, need, l1, l2s[j], DrawnItems(st, need, l2s, j, itemsOf))
  }

  /** The first `k` level 2s of `l2s`. */
  function MassLevel2s(st: MassState, need: int, l1: Level1, l2s: seq<Level2>, k: nat,
                       itemsOf: (nat, string, int) -> seq<string>): MassState
    requires k <= |l2s|
    decreases k
  {
    if k == 0 then st
    else MassLevel2(MassLevel2s(st, need, l1, l2s, k - 1, itemsOf), need, l1, l2s, k - 1, itemsOf)
  }

  /** One level 1, given its drawn level-2 count and its item draws. */
  function MassLevel1(st: MassState, need: int, l1: Level1, count: nat,
                      itemsOf: (nat, string, int) -> seq<string>): MassState {
    if st.aborted || st.generated >= need then st
    else
      var l2s := Level2List(l1.name, count);
      MassLevel2s(st, need, l1, l2s, |l2s|, itemsOf)
  }

  function MassLevel1s(st: MassState, need: int, level1s: seq<Level1>, level2Count: nat -> nat,
                       itemsOf: nat -> (nat, string, int) -> seq<string>): MassState
    decreases |level1s|
  {
    if level1s == [] then st
    else
      var n := |level1s| - 1;
      MassLevel1(MassLevel1s(st, need, level1s[..n], level2Count, itemsOf), need, level1s[n], level2Count(n), itemsOf(n))
  }

  /** The whole run: nothing at all when the collection already has `target` documents. */
  function MassRun(cats: seq<Category>, target: int, level1s: seq<Level1>, level2Count: nat -> nat,
                   itemsOf: nat -> (nat, string, int) -> seq<string>): MassState {
    var need := target - |cats|;
    if need <= 0 then MassState(cats, 0, false)
    else MassLevel1s(MassState(cats, 0, false), need, level1s, level2Count, itemsOf)
  }

  /** With a positive shortfall the run goes through the level-1 loop from an empty count. */
  lemma MassRunStarts(cats: seq<Category>, target: int, level1s: seq<Level1>, level2Count: nat -> nat,
                      itemsOf: nat -> (nat, string, int) -> seq<string>)
    requires target > |cats|
    ensures MassRun(cats, target, level1s, level2Count, itemsOf)
      == MassLevel1s(MassState(cats, 0, false), target - |cats|, level1s, level2Count, itemsOf)
  {
  }

  /** With no shortfall the run writes nothing. */
  lemma MassRunIdle(cats: seq<Category>, target: int, level1s: seq<Level1>, level2Count: nat -> nat,
                    itemsOf: nat -> (nat, string, int) -> seq<string>)
    requires target <= |cats|
    ensures MassRun(cats, target, level1s, level2Count, itemsOf) == MassState(cats, 0, false)
  {
  }

  /**
   * A state that is the early return (no shortfall) or the level-1 loop's
   * result (a positive shortfall) is the run's, and `MassRunQuota` bounds it.
   */
  lemma MassRunBounds(cats: seq<Category>, target: int, level1s: seq<Level1>, level2Count: nat -> nat,
                      itemsOf: nat -> (nat, string, int) -> seq<string>, r: MassState)
    requires UniqueLevel3(cats)
    requires target <= |cats| ==> r == MassState(cats, 0, false)
    requires target > |cats| ==> r == MassLevel1s(MassState(cats, 0, false), target - |cats|, level1s, level2Count, itemsOf)
    ensures r == MassRun(cats, target, level1s, level2Count, itemsOf)
    ensures cats <= r.cats && |r.cats| == |cats| + r.generated
    ensures r.generated <= (if target <= |cats| then 0 else target - |cats|)
  {
    if target <= |cats| {
      MassRunIdle(cats, target, level1s, level2Count, itemsOf);
    } else {
      MassRunStarts(cats, target, level1s, level2Count, itemsOf);
    }
    MassRunQuota(cats, target, level1s, level2Count, itemsOf);
  }

  // ---------------------------------------------------------------------
  // The quota is never exceeded.
  // ---------------------------------------------------------------------

  /**
   * What every step keeps: documents are only appended, the indexes stay
   * unique, `generated` counts the appended documents, never passes `need`,
   * and a failed run stays failed.
   */
  predicate Keeps(st: MassState, st': MassState, need: int) {
    && st.cats <= st'.cats
    && UniqueLevel3(st'.cats)
    && st'.generated == st.generated + (|st'.cats| - |st.cats|)
    && st'.generated <= (if st.generated <= need then need else st.generated)
    && (st.aborted ==> st' == st)
  }

  lemma KeepsTrans(a: MassState, b: MassState, c: MassState, need: int)
    requires Keeps(a, b, need) && Keeps(b, c, need)
    ensures Keeps(a, c, need)
  {
  }

  lemma MassItemKeeps(st: MassState, need: int, l1: Level1, l2: Level2, item: string)
    requires UniqueLevel3(st.cats)
    ensures Keeps(st, MassItem(st, need, l1, l2, item), need)
  {
    CreatePreservesUnique(st.cats, MassCategory(l1, l2, item));
  }

  lemma {:induction false} MassItemsKeeps(st: MassState, need: int, l1: Level1, l2: Level2, items: seq<string>)
    requires UniqueLevel3(st.cats)
    ensures Keeps(st, MassItems(st, need, l1, l2, items), need)
    decreases |items|
  {
    if items != [] {
      var mid := MassItems(st, need, l1, l2, items[..|items| - 1]);
      MassItemsKeeps(st, need, l1, l2, items[..|items| - 1]);
      MassItemKeeps(mid, need, l1, l2, items[|items| - 1]);
      KeepsTrans(st, mid, MassItems(st, need, l1, l2, items), need);
    }
  }

  lemma {:induction false} MassLevel2sKeeps(st: MassState, need: int, l1: Level1, l2s: seq<Level2>, k: nat,
                                            itemsOf: (nat, string, int) -> seq<string>)
    requires k <= |l2s|
    requires UniqueLevel3(st.cats)
    ensures Keeps(st, MassLevel2s(st, need, l1, l2s, k, itemsOf), need)
    decreases k
  {
    if k > 0 {
      var mid := MassLevel2s(st, need, l1, l2s, k - 1, itemsOf);
      MassLevel2sKeeps(st, need, l1, l2s, k - 1, itemsOf);
      if !mid.aborted && mid.generated < need {
        MassItemsKeeps(mid, need, l1, l2s[k - 1], DrawnItems(mid, need, l2s, k - 1, itemsOf));
        KeepsTrans(st, mid, MassLevel2s(st, need, l1, l2s, k, itemsOf), need);
      }
    }
  }

  lemma {:induction false} MassLevel1sKeeps(st: MassState, need: int, level1s: seq<Level1>,
                                            level2Count: nat -> nat, itemsOf: nat -> (nat, string, int) -> seq<string>)
    requires UniqueLevel3(st.cats)
    ensures Keeps(st, MassLevel1s(st, need, level1s, level2Count, itemsOf), need)
    decreases |level1s|
  {
    if level1s != [] {
      var n := |level1s| - 1;
      var mid := MassLevel1s(st, need, level1s[..n], level2Count, itemsOf);
      MassLevel1sKeeps(st, need, level1s[..n], level2Count, itemsOf);
      if !mid.aborted && mid.generated < need {
        var l2s := Level2List(level1s[n].name, level2Count(n));
        MassLevel2sKeeps(mid, need, level1s[n], l2s, |l2s|, itemsOf(n));
        KeepsTrans(st, mid, MassLevel1s(st, need, level1s, level2Count, itemsOf), need);
      }
    }
  }

  /**
   * The quota: a run generates nothing when the target is already reached,
   * and otherwise at most `target - existing` categories; `generated` is the
   * number of documents added, and the indexes stay unique.
   */
  lemma MassRunQuota(cats: seq<Category>, target: int, level1s: seq<Level1>, level2Count: nat -> nat,
                     itemsOf: nat -> (nat, string, int) -> seq<string>)
    requires UniqueLevel3(cats)
    ensures var r := MassRun(cats, target, level1s, level2Count, itemsOf);
      && cats <= r.cats
      && UniqueLevel3(r.cats)
      && r.generated == |r.cats| - |cats|
      && (target <= |cats| ==> r.cats == cats)
      && r.generated <= (if target <= |cats| then 0 else target - |cats|)
  {
    var need := target - |cats|;
    if need > 0 {
      MassLevel1sKeeps(MassState(cats, 0, false), need, level1s, level2Count, itemsOf);
    }
  }

  // ---------------------------------------------------------------------
  // Once the quota is met or a create has failed, nothing more happens.
  // ---------------------------------------------------------------------

  predicate Idle(st: MassState, need: int) {
    st.aborted || st.generated >= need
  }

  lemma {:induction false} MassItemsIdle(st: MassState, need: int, l1: Level1, l2: Level2, items: seq<string>)
    requires Idle(st, need)
    ensures MassItems(st, need, l1, l2, items) == st
    decreases |items|
  {
    if items != [] {
      MassItemsIdle(st, need, l1, l2, items[..|items| - 1]);
    }
  }

  /** An idle state after the first `k` items stays the final state of the whole list. */
  lemma {:induction false} MassItemsIdleFrom(st: MassState, need: int, l1: Level1, l2: Level2, items: seq<string>, k: nat)
    requires k <= |items|
    requires k == |items| || Idle(MassItems(st, need, l1, l2, items[..k]), need)
    ensures MassItems(st, need, l1, l2, items) == MassItems(st, need, l1, l2, items[..k])
    decreases |items|
  {
    if k < |items| {
      var n := |items| - 1;
      assert items[..n][..k] == items[..k];
      MassItemsIdleFrom(st, need, l1, l2, items[..n], k);
    } else {
      assert items[..k] == items;
    }
  }

  lemma {:induction false} MassLevel2sIdleFrom(st: MassState, need: int, l1: Level1, l2s: seq<Level2>, j: nat, k: nat,
                                               itemsOf: (nat, string, int) -> seq<string>)
    requires j <= k <= |l2s|
    requires j == k || Idle(MassLevel2s(st, need, l1, l2s, j, itemsOf), need)
    ensures MassLevel2s(st, need, l1, l2s, k, itemsOf) == MassLevel2s(st, need, l1, l2s, j, itemsOf)
    decreases k
  {
    if j < k {
      MassLevel2sIdleFrom(st, need, l1, l2s, j, k - 1, itemsOf);
    }
  }

  lemma MassLevel1Idle(st: MassState, need: int, l1: Level1, count: nat, itemsOf: (nat, string, int) -> seq<string>)
    requires Idle(st, need)
    ensures MassLevel1(st, need, l1, count, itemsOf) == st
  {
  }

  lemma {:induction false} MassLevel1sIdleFrom(st: MassState, need: int, level1s: seq<Level1>, i: nat,
                                               level2Count: nat -> nat, itemsOf: nat -> (nat, string, int) -> seq<string>)
    requires i <= |level1s|
    requires i == |level1s| || Idle(MassLevel1s(st, need, level1s[..i], level2Count, itemsOf), need)
    ensures MassLevel1s(st, need, level1s, level2Count, itemsOf) == MassLevel1s(st, need, level1s[..i], level2Count, itemsOf)
    decreases |level1s|
  {
    if i < |level1s| {
      var n := |level1s| - 1;
      PrefixOfPrefix(level1s, n, i);
      MassLevel1sIdleFrom(st, need, level1s[..n], i, level2Count, itemsOf);
      var prev := MassLevel1s(st, need, level1s[..n], level2Count, itemsOf);
      assert MassLevel1s(st, need, level1s, level2Count, itemsOf) == MassLevel1(prev, need, level1s[n], level2Count(n), itemsOf(n));
      MassLevel1Idle(prev, need, level1s[n], level2Count(n), itemsOf(n));
    } else {
      PrefixOfPrefix(level1s, i, i);
    }
  }

  // ---------------------------------------------------------------------
  // The loops of generateMassCategories.
  // ---------------------------------------------------------------------

  lemma MassItemsStep(st: MassState, need: int, l1: Level1, l2: Level2, items: seq<string>, k: nat)
    requires k < |items|
    ensures MassItems(st, need, l1, l2, items[..k + 1]) == MassItem(MassItems(st, need, l1, l2, items[..k]), need, l1, l2, items[k])
  {
    assert items[..k + 1][..k] == items[..k];
  }

  lemma MassLevel2sStep(st: MassState, need: int, l1: Level1, l2s: seq<Level2>, j: nat,
                        itemsOf: (nat, string, int) -> seq<string>)
    requires j < |l2s|
    ensures MassLevel2s(st, need, l1, l2s, j + 1, itemsOf) == MassLevel2(MassLevel2s(st, need, l1, l2s, j, itemsOf), need, l1, l2s, j, itemsOf)
  {
  }

  lemma MassLevel1sStep(st: MassState, need: int, level1s: seq<Level1>, i: nat,
                        level2Count: nat -> nat, itemsOf: nat -> (nat, string, int) -> seq<string>)
    requires i < |level1s|
    ensures MassLevel1s(st, need, level1s[..i + 1], level2Count, itemsOf)
      == MassLevel1(MassLevel1s(st, need, level1s[..i], level2Count, itemsOf), need, level1s[i], level2Count(i), itemsOf(i))
  {
    assert level1s[..i + 1][..i] == level1s[..i];
  }

  /**
   * The item loop: a used name is skipped, the loop stops at the quota, and
   * a refused `create` ends the run (`failed`).
   */
  method MassItemsLoop(store: CategoryStore, usedNames: set<string>, need: int, l1: Level1, l2: Level2,
                       items: seq<string>, generated: nat)
      returns (used': set<string>, generated': nat, failed: bool)
    requires store.Valid() && usedNames == Level3Names(store.cats)
    modifies store
    ensures store.Valid() && used' == Level3Names(store.cats)
    ensures MassState(store.cats, generated', failed) == MassItems(MassState(old(store.cats), generated, false), need, l1, l2, items)
  {
    ghost var st := MassState(store.cats, generated, false);
    used', generated', failed := usedNames, generated, false;
    var k := 0;
    while k < |items| && generated' < need && !failed
      invariant 0 <= k <= |items|
      invariant store.Valid() && used' == Level3Names(store.cats)
      invariant MassState(store.cats, generated', failed) == MassItems(st, need, l1, l2, items[..k])
    {
      MassItemsStep(st, need, l1, l2, items, k);
      var item := items[k];
      k := k + 1;
      if item in used' {
        continue;
      }
      var c := MassCategory(l1, l2, item);
      ghost var before := store.cats;
      var outcome := store.Create(c);
      if outcome != Created {
        failed := true;
      } else {
        Level3NamesPush(before, c);
        used' := used' + {item};
        generated' := generated' + 1;
      }
    }
    MassItemsIdleFrom(st, need, l1, l2, items, k);
  }

  method MassLevel2sLoop(store: CategoryStore, usedNames: set<string>, need: int, l1: Level1, l2s: seq<Level2>,
                         itemsOf: (nat, string, int) -> seq<string>, generated: nat)
      returns (used': set<string>, generated': nat, failed: bool)
    requires store.Valid() && usedNames == Level3Names(store.cats)
    modifies store
    ensures store.Valid() && used' == Level3Names(store.cats)
    ensures MassState(store.cats, generated', failed) == MassLevel2s(MassState(old(store.cats), generated, false), need, l1, l2s, |l2s|, itemsOf)
  {
    ghost var st := MassState(store.cats, generated, false);
    used', generated', failed := usedNames, generated, false;
    var j := 0;
    while j < |l2s| && generated' < need && !failed
      invariant 0 <= j <= |l2s|
      invariant store.Valid() && used' == Level3Names(store.cats)
      invariant MassState(store.cats, generated', failed) == MassLevel2s(st, need, l1, l2s, j, itemsOf)
    {
      used', generated', failed := MassLevel2Step(store, used', need, l1, l2s, j, itemsOf, generated', st);
      j := j + 1;
    }
    MassLevel2sExit(st, need, l1, l2s, j, itemsOf, MassState(store.cats, generated', failed));
  }

  /** Where the level-2 loop stops, its state is already the state after all of `l2s`. */
  lemma MassLevel2sExit(st: MassState, need: int, l1: Level1, l2s: seq<Level2>, j: nat,
                        itemsOf: (nat, string, int) -> seq<string>, r: MassState)
    requires j <= |l2s| && r == MassLevel2s(st, need, l1, l2s, j, itemsOf)
    requires j == |l2s| || r.generated >= need || r.aborted
    ensures r == MassLevel2s(st, need, l1, l2s, |l2s|, itemsOf)
  {
    MassLevel2sIdleFrom(st, need, l1, l2s, j, |l2s|, itemsOf);
  }

  /** The body of the level-2 loop: draw this level 2's share of items and run the item loop. */
  method MassLevel2Step(store: CategoryStore, usedNames: set<string>, need: int, l1: Level1, l2s: seq<Level2>, j: nat,
                        itemsOf: (nat, string, int) -> seq<string>, generated: nat, ghost st: MassState)
      returns (used': set<string>, generated': nat, failed: bool)
    requires store.Valid() && usedNames == Level3Names(store.cats)
    requires j < |l2s| && generated < need
    requires MassState(store.cats, generated, false) == MassLevel2s(st, need, l1, l2s, j, itemsOf)
    modifies store
    ensures store.Valid() && used' == Level3Names(store.cats)
    ensures MassState(store.cats, generated', failed) == MassLevel2(MassState(old(store.cats), generated, false), need, l1, l2s, j, itemsOf)
    ensures MassState(store.cats, generated', failed) == MassLevel2s(st, need, l1, l2s, j + 1, itemsOf)
  {
    MassLevel2sStep(st, need, l1, l2s, j, itemsOf);
    var itemsPerLevel2 := ItemsPerLevel2(need - generated, |l2s| - j);
    var items := Dedup(itemsOf(j, l2s[j].name, itemsPerLevel2));
    used', generated', failed := MassItemsLoop(store, usedNames, need, l1, l2s[j], items, generated);
  }

  method MassLevel1Step(store: CategoryStore, usedNames: set<string>, need: int, l1: Level1,
                        count: nat, itemsOf: (nat, string, int) -> seq<string>, generated: nat)
      returns (used': set<string>, generated': nat, failed: bool)
    requires store.Valid() && usedNames == Level3Names(store.cats) && generated < need
    modifies store
    ensures store.Valid() && used' == Level3Names(store.cats)
    ensures MassState(store.cats, generated', failed) == MassLevel1(MassState(old(store.cats), generated, false), need, l1, count, itemsOf)
  {
    var level2List := GenerateLevel2ForLevel1(l1.name, count);
    used', generated', failed := MassLevel2sLoop(store, usedNames, need, l1, level2List, itemsOf, generated);
  }

  method MassLevel1sLoop(store: CategoryStore, usedNames: set<string>, need: int, level1s: seq<Level1>,
                         level2Count: nat -> nat, itemsOf: nat -> (nat, string, int) -> seq<string>)
      returns (generated: nat, failed: bool)
    requires store.Valid() && usedNames == Level3Names(store.cats)
    modifies store
    ensures store.Valid()
    ensures MassState(store.cats, generated, failed) == MassLevel1s(MassState(old(store.cats), 0, false), need, level1s, level2Count, itemsOf)
  {
    ghost var st := MassState(store.cats, 0, false);
    var used := usedNames;
    generated, failed := 0, false;
    var i := 0;
    while i < |level1s| && generated < need && !failed
      invariant 0 <= i <= |level1s|
      invariant store.Valid() && used == Level3Names(store.cats)
      invariant MassState(store.cats, generated, failed) == MassLevel1s(st, need, level1s[..i], level2Count, itemsOf)
    {
      MassLevel1sStep(st, need, level1s, i, level2Count, itemsOf);
      used, generated, failed := MassLevel1Step(store, used, need, level1s[i], level2Count(i), itemsOf(i), generated);
      i := i + 1;
    }
    MassLevel1sIdleFrom(st, need, level1s, i, level2Count, itemsOf);
  }

  /**
   * `generateMassCategories(target)`: `failed` is the thrown error of a
   * refused `create`. The collection and the counter end up as the
   * specification run `MassRun` computes from the stored categories, so the
   * quota and uniqueness of `MassRunQuota` hold of them.
   */
  method GenerateMassCategories(store: CategoryStore, target: int, level1s: seq<Level1>,
                                level2Count: nat -> nat, itemsOf: nat -> (nat, string, int) -> seq<string>)
      returns (generated: nat, failed: bool)
    requires store.Valid()
    modifies store
    ensures store.Valid()
    ensures MassState(store.cats, generated, failed) == MassRun(old(store.cats), target, level1s, level2Count, itemsOf)
    ensures old(store.cats) <= store.cats && |store.cats| == |old(store.cats)| + generated
    ensures generated <= (if target <= |old(store.cats)| then 0 else target - |old(store.cats)|)
  {
    generated, failed := 0, false;
    var need := target - |store.cats|;
    if need > 0 {
      generated, failed := TopUp(store, need, level1s, level2Count, itemsOf);
      MassRunBounds(old(store.cats), target, level1s, level2Count, itemsOf, MassState(store.cats, generated, failed));
    } else {
      MassRunBounds(store.cats, target, level1s, level2Count, itemsOf, MassState(store.cats, generated, failed));
    }
  }

  /** The part of `generateMassCategories` after the early return: collect the used names, then loop. */
  method TopUp(store: CategoryStore, need: int, level1s: seq<Level1>,
               level2Count: nat -> nat, itemsOf: nat -> (nat, string, int) -> seq<string>)
      returns (generated: nat, failed: bool)
    requires store.Valid()
    modifies store
    ensures store.Valid()
    ensures MassState(store.cats, generated, failed) == MassLevel1s(MassState(old(store.cats), 0, false), need, level1s, level2Count, itemsOf)
  {
    var usedNames := CollectNames(store.cats);
    generated, failed := MassLevel1sLoop(store, usedNames, need, level1s, level2Count, itemsOf);
  }
}
