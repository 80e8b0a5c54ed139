/**
 * scripts/add-more-categories.js: add the level-3 categories of a fixed
 * table to an existing collection, skipping names already present, and
 * count what was added and what was skipped.
 *
 * The literal table is the `groups` parameter. The run takes a `SlugRule`:
 * `AsWritten` builds the level-2 and level-3 slugs with the script's
 * ASCII-only mask (`AsciiMask` below), under which two Chinese items of one
 * level 2 can collide; `Corrected` builds them with the CJK-keeping slug
 * normalisation of the other scripts.
 */
module AddMoreCategories {
  import opened Wrappers
  import opened Text
  import opened Slugs
  import opened CategoryModel

  // ---------------------------------------------------------------------
  // generateDimensions(itemName)
  // ---------------------------------------------------------------------

  const SockExtra: seq<Dimension> :=
    [Dimension("最舒适", 10), Dimension("最耐穿", 9), Dimension("透气最好", 8), Dimension("防臭最好", 7)]
  const SupplementExtra: seq<Dimension> :=
    [Dimension("纯度最高", 10), Dimension("吸收最好", 9), Dimension("品牌最好", 8)]

  predicate IsSock(item: string) { Includes(item, "袜") }

  predicate IsSupplement(item: string) {
    Includes(item, "鱼油") || Includes(item, "蛋白粉") || Includes(item, "维生素")
  }

  /**
   * The three common dimensions, then four sock dimensions for a 袜 item,
   * three supplement dimensions for 鱼油/蛋白粉/维生素, and nothing else otherwise.
   */
  function AddDimensions(item: string): (d: seq<Dimension>)
    ensures |d| == (if IsSock(item) then 7 else if IsSupplement(item) then 6 else 3)
    ensures DistinctNames(d)
    ensures d[..3] == QualityDimensions
  {
    if IsSock(item) then QualityDimensions + SockExtra
    else if IsSupplement(item) then QualityDimensions + SupplementExtra
    else QualityDimensions
  }

  // ---------------------------------------------------------------------
  // generatePriceRanges(itemName)
  // ---------------------------------------------------------------------

  const SockBands: seq<PriceRange> :=
    [Band("平价", 0, 19), Band("中端", 20, 49), Band("高端", 50, 99), Band("奢侈", 100, 999999)]
  const HealthBands: seq<PriceRange> :=
    [Band("入门", 0, 99), Band("中端", 100, 199), Band("高端", 200, 399), Band("奢侈", 400, 999999)]
  const GeneralBands: seq<PriceRange> :=
    [Band("入门", 0, 99), Band("中端", 100, 299), Band("高端", 300, 599), Band("奢侈", 600, 999999)]

  /**
   * Four contiguous bands covering [0, 999999]; only sock items start with
   * the 平价 band.
   */
  function AddPriceRanges(item: string): (r: seq<PriceRange>)
    ensures ContiguousBands(r)
    ensures r[0].name == "平价" <==> IsSock(item)
    ensures r[3].name == "奢侈"
  {
    if IsSock(item) then SockBands
    else if Includes(item, "鱼油") || Includes(item, "保健品") then HealthBands
    else GeneralBands
  }

  // ---------------------------------------------------------------------
  // The level-3 slug.
  // ---------------------------------------------------------------------

  predicate IsAsciiAlnum(c: char) { 'a' <= c <= 'z' || '0' <= c <= '9' }

  /**
   * As written: `s.toLowerCase().replace(/[^a-z0-9]/g, '-')`. Each character
   * becomes exactly one character and runs are not collapsed, so every
   * character outside `[a-z0-9]` after lower-casing, CJK included, becomes `-`.
   */
  function AsciiMask(s: string): (r: string)
    ensures |r| == |s|
    ensures forall i :: 0 <= i < |s| ==> r[i] == (if IsAsciiAlnum(ToLower(s[i])) then ToLower(s[i]) else '-')
  {
    seq(|s|, i requires 0 <= i < |s| => if IsAsciiAlnum(ToLower(s[i])) then ToLower(s[i]) else '-')
  }

  /** As written: `${level1.slug}-${mask(level2.name)}-${mask(item)}`. */
  function AsWrittenSlug(l1Slug: string, l2Name: string, item: string): string {
    l1Slug + "-" + AsciiMask(l2Name) + "-" + AsciiMask(item)
  }

  /** A name made only of characters of the CJK block. */
  predicate AllCjk(s: string) { forall i :: 0 <= i < |s| ==> IsCjk(s[i]) }

  /**
   * As written, two all-CJK items of the same level 2 with names of the same
   * length get the same slug: 男士商务袜 and 男士运动袜 both become `-----`,
   * so the second `create` hits the unique slug index although its name is new.
   */
  lemma AsWrittenSlugCollides(l1Slug: string, l2Name: string, a: string, b: string)
    requires AllCjk(a) && AllCjk(b) && |a| == |b|
    ensures AsWrittenSlug(l1Slug, l2Name, a) == AsWrittenSlug(l1Slug, l2Name, b)
  {
    assert AsciiMask(a) == AsciiMask(b);
  }

  /** The concrete pair from the script's own table. */
  lemma AsWrittenSockSlugsCollide()
    ensures "男士商务袜" != "男士运动袜"
    ensures AsWrittenSlug("fashion", "男士袜子", "男士商务袜") == AsWrittenSlug("fashion", "男士袜子", "男士运动袜")
  {
    assert "男士运动袜"[2] != "男士商务袜"[2];
    AsWrittenSlugCollides("fashion", "男士袜子", "男士商务袜", "男士运动袜");
  }

  /** Corrected: the level-3 slug of the other import scripts, keeping CJK characters. */
  function ItemSlug(l1Slug: string, l2Name: string, item: string): string {
    l1Slug + "-" + GenerateSlug(l2Name) + "-" + GenerateSlug(item)
  }

  /** With the corrected slug, distinct non-empty all-CJK items of one level 2 get distinct slugs. */
  lemma ItemSlugsDistinct(l1Slug: string, l2Name: string, a: string, b: string)
    requires AllCjk(a) && AllCjk(b) && a != [] && b != [] && a != b
    ensures ItemSlug(l1Slug, l2Name, a) != ItemSlug(l1Slug, l2Name, b)
  {
    GenerateSlugOfSlug(a);
    GenerateSlugOfSlug(b);
    var p := l1Slug + "-" + GenerateSlug(l2Name) + "-";
    assert ItemSlug(l1Slug, l2Name, a) == p + a;
    assert ItemSlug(l1Slug, l2Name, b) == p + b;
    assert (p + a)[|p|..] == a;
    assert (p + b)[|p|..] == b;
  }

  // ---------------------------------------------------------------------
  // addMoreCategories
  // ---------------------------------------------------------------------

  datatype Level2Def = Level2Def(name: string, icon: string, items: seq<string>)
  datatype Level1Group = Level1Group(level1Name: string, level2List: seq<Level2Def>)

  /** Which slugs the run writes: the script's ASCII mask as written, or the corrected CJK-keeping ones. */
  datatype SlugRule = AsWritten | Corrected

  /** The category written for `item` of `l2`, under the level 1 copied from a sample. */
  function NewCategory(rule: SlugRule, l1: Level1, l2: Level2Def, item: string): Category {
    var l2Slug := if rule == AsWritten then AsciiMask(l2.name) else GenerateSlug(l2.name);
    var l3Slug := if rule == AsWritten then AsWrittenSlug(l1.slug, l2.name, item) else ItemSlug(l1.slug, l2.name, item);
    Category(l1, Level2(l2.name, l2Slug, l2.icon), Level3(item, l3Slug, AddDimensions(item), AddPriceRanges(item)))
  }

  /**
   * The new category keeps the sample's level 1 and the table's names and
   * icon, carries the item's own dimensions and price bands and the slugs
   * of `rule`; as written, it passes validation exactly when the level 1,
   * the level-2 name and the item are non-empty.
   */
  lemma NewCategoryShape(rule: SlugRule, l1: Level1, l2: Level2Def, item: string)
    ensures var c := NewCategory(rule, l1, l2, item);
      && c.level1 == l1 && c.level2.name == l2.name && c.level2.icon == l2.icon && c.level3.name == item
      && (rule == AsWritten ==>
            c.level2.slug == AsciiMask(l2.name) && c.level3.slug == AsWrittenSlug(l1.slug, l2.name, item))
      && (rule == Corrected ==>
            c.level2.slug == GenerateSlug(l2.name) && c.level3.slug == ItemSlug(l1.slug, l2.name, item))
      && c.level3.dimensions == AddDimensions(item) && c.level3.priceRanges == AddPriceRanges(item)
      && (rule == AsWritten ==>
            (c.HasRequired() <==> l1.name != "" && l1.slug != "" && l2.name != "" && item != ""))
  {
  }

  /** The collection and the two counters. */
  datatype AddState = AddState(cats: seq<Category>, added: nat, skipped: nat)

  /**
   * `findOne({'level3.name'})` followed by `create` in a try block: a name
   * already present is skipped; otherwise `create` runs, and a success is
   * added, a duplicate key (error 11000) is skipped, and any other error is
   * neither.
   */
  function TryAdd(st: AddState, c: Category): AddState {
    if c.level3.name in Level3Names(st.cats) then st.(skipped := st.skipped + 1)
    else
      match CreateOutcomeOf(st.cats, c)
      case Created => AddState(st.cats + [c], st.added + 1, st.skipped)
      case DuplicateKey => st.(skipped := st.skipped + 1)
      case ValidationError => st
  }

  /** One item of a level 2. */
  function AddItem(rule: SlugRule, st: AddState, l1: Level1, l2: Level2Def, item: string): AddState {
    TryAdd(st, NewCategory(rule, l1, l2, item))
  }

  function AddItems(rule: SlugRule, st: AddState, l1: Level1, l2: Level2Def, items: seq<string>): AddState
    decreases |items|
  {
    if items == [] then st
    else AddItem(rule, AddItems(rule, st, l1, l2, items[..|items| - 1]), l1, l2, items[|items| - 1])
  }

  function AddLevel2s(rule: SlugRule, st: AddState, l1: Level1, l2s: seq<Level2Def>): AddState
    decreases |l2s|
  {
    if l2s == [] then st
    else
      var n := |l2s| - 1;
      AddItems(rule, AddLevel2s(rule, st, l1, l2s[..n]), l1, l2s[n], l2s[n].items)
  }

  /** One level-1 group: with no stored sample of that level 1, the whole group is skipped. */
  function AddGroup(rule: SlugRule, st: AddState, g: Level1Group): AddState {
    match FirstWithLevel1(st.cats, g.level1Name)
    case None => st
    case Some(sample) => AddLevel2s(rule, st, sample.level1, g.level2List)
  }

  function AddGroups(rule: SlugRule, st: AddState, groups: seq<Level1Group>): AddState
    decreases |groups|
  {
    if groups == [] then st
    else AddGroup(rule, AddGroups(rule, st, groups[..|groups| - 1]), groups[|groups| - 1])
  }

  /**
   * What the run keeps: the indexes stay unique, documents are only
   * appended, `added` counts exactly the appended documents, and `skipped`
   * never decreases.
   */
  predicate Grows(st: AddState, st': AddState) {
    && st.cats <= st'.cats
    && st'.added == st.added + (|st'.cats| - |st.cats|)
    && st.skipped <= st'.skipped
  }

  /** One attempt keeps the indexes unique, appends at most `c`, and counts it as added or skipped at most once. */
  lemma TryAddGrows(st: AddState, c: Category)
    requires UniqueLevel3(st.cats)
    ensures UniqueLevel3(TryAdd(st, c).cats)
    ensures Grows(st, TryAdd(st, c))
    ensures TryAdd(st, c).cats == st.cats || TryAdd(st, c).cats == st.cats + [c]
    ensures |TryAdd(st, c).cats| + TryAdd(st, c).skipped <= |st.cats| + st.skipped + 1
  {
    CreatePreservesUnique(st.cats, c);
  }

  lemma AddItemGrows(rule: SlugRule, st: AddState, l1: Level1, l2: Level2Def, item: string)
    requires UniqueLevel3(st.cats)
    ensures UniqueLevel3(AddItem(rule, st, l1, l2, item).cats)
    ensures Grows(st, AddItem(rule, st, l1, l2, item))
  {
    TryAddGrows(st, NewCategory(rule, l1, l2, item));
  }

  lemma GrowsTrans(a: AddState, b: AddState, c: AddState)
    requires Grows(a, b) && Grows(b, c)
    ensures Grows(a, c)
  {
  }

  lemma {:induction false} AddItemsGrows(rule: SlugRule, st: AddState, l1: Level1, l2: Level2Def, items: seq<string>)
    requires UniqueLevel3(st.cats)
    ensures UniqueLevel3(AddItems(rule, st, l1, l2, items).cats)
    ensures Grows(st, AddItems(rule, st, l1, l2, items))
    decreases |items|
  {
    if items != [] {
      var mid := AddItems(rule, st, l1, l2, items[..|items| - 1]);
      AddItemsGrows(rule, st, l1, l2, items[..|items| - 1]);
      AddItemGrows(rule, mid, l1, l2, items[|items| - 1]);
      GrowsTrans(st, mid, AddItems(rule, st, l1, l2, items));
    }
  }

  lemma {:induction false} AddLevel2sGrows(rule: SlugRule, st: AddState, l1: Level1, l2s: seq<Level2Def>)
    requires UniqueLevel3(st.cats)
    ensures UniqueLevel3(AddLevel2s(rule, st, l1, l2s).cats)
    ensures Grows(st, AddLevel2s(rule, st, l1, l2s))
    decreases |l2s|
  {
    if l2s != [] {
      var n := |l2s| - 1;
      var mid := AddLevel2s(rule, st, l1, l2s[..n]);
      AddLevel2sGrows(rule, st, l1, l2s[..n]);
      AddItemsGrows(rule, mid, l1, l2s[n], l2s[n].items);
      GrowsTrans(st, mid, AddLevel2s(rule, st, l1, l2s));
    }
  }

  /** The whole run keeps the unique indexes, only appends, and counts every appended document as added. */
  lemma {:induction false} AddGroupsGrows(rule: SlugRule, st: AddState, groups: seq<Level1Group>)
    requires UniqueLevel3(st.cats)
    ensures UniqueLevel3(AddGroups(rule, st, groups).cats)
    ensures Grows(st, AddGroups(rule, st, groups))
    decreases |groups|
  {
    if groups != [] {
      var n := |groups| - 1;
      var mid := AddGroups(rule, st, groups[..n]);
      AddGroupsGrows(rule, st, groups[..n]);
      match FirstWithLevel1(mid.cats, groups[n].level1Name)
      case None =>
      case Some(sample) =>
        AddLevel2sGrows(rule, mid, sample.level1, groups[n].level2List);
        GrowsTrans(st, mid, AddGroups(rule, st, groups));
    }
  }

  /** An item whose name is already stored is skipped and nothing is written. */
  lemma ExistingNameSkipped(rule: SlugRule, st: AddState, l1: Level1, l2: Level2Def, item: string)
    requires item in Level3Names(st.cats)
    ensures AddItem(rule, st, l1, l2, item) == AddState(st.cats, st.added, st.skipped + 1)
  {
  }

  /** A document that `create` refuses stays refused once more documents are stored. */
  lemma RefusalPersists(cats: seq<Category>, more: seq<Category>, c: Category)
    requires cats <= more
    requires CreateOutcomeOf(cats, c) != Created
    ensures CreateOutcomeOf(more, c) != Created
  {
    Level3NamesGrow(cats, more);
  }

  /** Once an item of `l2` has been offered, `create` refuses that item from then on. */
  lemma {:induction false} AddItemsRefusesRepeat(rule: SlugRule, st: AddState, l1: Level1, l2: Level2Def, items: seq<string>, item: string)
    requires item in items
    ensures CreateOutcomeOf(AddItems(rule, st, l1, l2, items).cats, NewCategory(rule, l1, l2, item)) != Created
    decreases |items|
  {
    var n := |items| - 1;
    var mid := AddItems(rule, st, l1, l2, items[..n]);
    var r := AddItems(rule, st, l1, l2, items);
    assert r == AddItem(rule, mid, l1, l2, items[n]);
    AddItemAppends(rule, mid, l1, l2, items[n]);
    assert item in items[..n] || item == items[n] by {
      var i :| 0 <= i < |items| && items[i] == item;
      if i < n {
        assert items[..n][i] == item;
      }
    }
    if item in items[..n] {
      AddItemsRefusesRepeat(rule, st, l1, l2, items[..n], item);
      RefusalPersists(mid.cats, r.cats, NewCategory(rule, l1, l2, item));
    } else {
      AddItemRefusesAgain(rule, mid, l1, l2, item);
    }
  }

  lemma AddItemAppends(rule: SlugRule, st: AddState, l1: Level1, l2: Level2Def, item: string)
    ensures st.cats <= AddItem(rule, st, l1, l2, item).cats
  {
  }

  /** Right after an item is offered, `create` refuses it. */
  lemma AddItemRefusesAgain(rule: SlugRule, st: AddState, l1: Level1, l2: Level2Def, item: string)
    ensures CreateOutcomeOf(AddItem(rule, st, l1, l2, item).cats, NewCategory(rule, l1, l2, item)) != Created
  {
    var c := NewCategory(rule, l1, l2, item);
    var r := AddItem(rule, st, l1, l2, item);
    if item !in Level3Names(st.cats) && CreateOutcomeOf(st.cats, c) == Created {
      assert r.cats == st.cats + [c];
      assert r.cats[|st.cats|].level3.name == item;
      assert item in Level3Names(r.cats);
    }
  }

  /**
   * A name is never created twice in one run: an item repeating an earlier
   * item of the same level 2 writes nothing.
   */
  lemma RepeatedItemWritesNothing(rule: SlugRule, st: AddState, l1: Level1, l2: Level2Def, items: seq<string>)
    requires |items| > 0
    requires items[|items| - 1] in items[..|items| - 1]
    ensures AddItems(rule, st, l1, l2, items).cats == AddItems(rule, st, l1, l2, items[..|items| - 1]).cats
  {
    AddItemsRefusesRepeat(rule, st, l1, l2, items[..|items| - 1], items[|items| - 1]);
  }

  /** Two items of one level 2 are two attempts in turn. */
  lemma AddItemsPair(rule: SlugRule, st: AddState, l1: Level1, l2: Level2Def, a: string, b: string)
    ensures AddItems(rule, st, l1, l2, [a, b])
      == TryAdd(TryAdd(st, NewCategory(rule, l1, l2, a)), NewCategory(rule, l1, l2, b))
  {
    var items := [a, b];
    AddItemsStep(rule, st, l1, l2, items, 0);
    AddItemsStep(rule, st, l1, l2, items, 1);
    assert items[..0] == [];
    assert items[..2] == items;
  }

  /** A created document appends itself, and a second one clashing with neither index nor the first is created too. */
  lemma TryAddTwoCreated(st: AddState, ca: Category, cb: Category)
    requires CreateOutcomeOf(st.cats, ca) == Created && cb.HasRequired()
    requires ca.level3.name !in Level3Names(st.cats)
    requires cb.level3.name !in Level3Names(st.cats) && cb.level3.name != ca.level3.name
    requires cb.level3.slug !in Level3Slugs(st.cats) && cb.level3.slug != ca.level3.slug
    ensures TryAdd(TryAdd(st, ca), cb) == AddState(st.cats + [ca, cb], st.added + 2, st.skipped)
  {
    var cats := st.cats + [ca];
    Level3NamesPush(st.cats, ca);
    Level3SlugsPush(st.cats, ca);
    assert CreateOutcomeOf(cats, cb) == Created;
    assert cats + [cb] == st.cats + [ca, cb];
  }

  /**
   * As written, the second of two same-length all-CJK items of one level 2
   * is skipped: once the first is created, the second's new name meets the
   * first's slug on the unique index.
   */
  lemma AsWrittenSecondItemSkipped(st: AddState, l1: Level1, l2: Level2Def, a: string, b: string)
    requires AllCjk(a) && AllCjk(b) && |a| == |b| && a != b
    requires a !in Level3Names(st.cats) && b !in Level3Names(st.cats)
    requires CreateOutcomeOf(st.cats, NewCategory(AsWritten, l1, l2, a)) == Created
    ensures AddItems(AsWritten, st, l1, l2, [a, b])
      == AddState(st.cats + [NewCategory(AsWritten, l1, l2, a)], st.added + 1, st.skipped + 1)
  {
    var ca := NewCategory(AsWritten, l1, l2, a);
    var cb := NewCategory(AsWritten, l1, l2, b);
    var cats := st.cats + [ca];
    AddItemsPair(AsWritten, st, l1, l2, a, b);
    AsWrittenSlugCollides(l1.slug, l2.name, a, b);
    Level3NamesPush(st.cats, ca);
    Level3SlugsPush(st.cats, ca);
    assert CreateOutcomeOf(cats, cb) == DuplicateKey;
  }

  /** Corrected, both items are created. */
  lemma CorrectedSecondItemAdded(st: AddState, l1: Level1, l2: Level2Def, a: string, b: string)
    requires AllCjk(a) && AllCjk(b) && a != [] && b != [] && a != b
    requires a !in Level3Names(st.cats) && b !in Level3Names(st.cats)
    requires CreateOutcomeOf(st.cats, NewCategory(Corrected, l1, l2, a)) == Created
    requires ItemSlug(l1.slug, l2.name, b) !in Level3Slugs(st.cats)
    ensures AddItems(Corrected, st, l1, l2, [a, b]) == AddState(
      st.cats + [NewCategory(Corrected, l1, l2, a), NewCategory(Corrected, l1, l2, b)], st.added + 2, st.skipped)
  {
    AddItemsPair(Corrected, st, l1, l2, a, b);
    ItemSlugsDistinct(l1.slug, l2.name, a, b);
    TryAddTwoCreated(st, NewCategory(Corrected, l1, l2, a), NewCategory(Corrected, l1, l2, b));
  }

  // ---------------------------------------------------------------------
  // Attempts at a list of documents, and why a second run adds nothing.
  // ---------------------------------------------------------------------

  /** `TryAdd` on each of `cs` in order. */
  function TryAddAll(st: AddState, cs: seq<Category>): AddState
    decreases |cs|
  {
    if cs == [] then st
    else TryAdd(TryAddAll(st, cs[..|cs| - 1]), cs[|cs| - 1])
  }

  lemma {:induction false} TryAddAllAppend(st: AddState, a: seq<Category>, b: seq<Category>)
    ensures TryAddAll(st, a + b) == TryAddAll(TryAddAll(st, a), b)
    decreases |b|
  {
    if b == [] {
      assert a + b == a;
    } else {
      var n := |b| - 1;
      assert (a + b)[..|a + b| - 1] == a + b[..n];
      TryAddAllAppend(st, a, b[..n]);
    }
  }

  /** Every document the attempts append is one of `cs`; the indexes stay unique. */
  lemma {:induction false} TryAddAllGrows(st: AddState, cs: seq<Category>)
    requires UniqueLevel3(st.cats)
    ensures UniqueLevel3(TryAddAll(st, cs).cats)
    ensures Grows(st, TryAddAll(st, cs))
    ensures forall i :: |st.cats| <= i < |TryAddAll(st, cs).cats| ==> TryAddAll(st, cs).cats[i] in cs
    decreases |cs|
  {
    if cs != [] {
      var n := |cs| - 1;
      var mid := TryAddAll(st, cs[..n]);
      var r := TryAddAll(st, cs);
      TryAddAllGrows(st, cs[..n]);
      TryAddGrows(mid, cs[n]);
      GrowsTrans(st, mid, r);
      forall i | |st.cats| <= i < |r.cats| ensures r.cats[i] in cs {
        if i < |mid.cats| {
          assert r.cats[i] == mid.cats[i];
          assert mid.cats[i] in cs[..n];
        } else {
          assert r.cats[i] == cs[n];
        }
      }
    }
  }

  /** `c` cannot be added any more: its name is stored, or `create` refuses it. */
  predicate Settled(cats: seq<Category>, c: Category) {
    c.level3.name in Level3Names(cats) || CreateOutcomeOf(cats, c) != Created
  }

  lemma SettledPersists(cats: seq<Category>, more: seq<Category>, c: Category)
    requires cats <= more && Settled(cats, c)
    ensures Settled(more, c)
  {
    Level3NamesGrow(cats, more);
  }

  /** After one attempt at `c`, `c` is settled. */
  lemma TryAddSettles(st: AddState, c: Category)
    ensures Settled(TryAdd(st, c).cats, c)
  {
    if c.level3.name !in Level3Names(st.cats) && CreateOutcomeOf(st.cats, c) == Created {
      Level3NamesPush(st.cats, c);
    }
  }

  /** An attempt at a settled document writes nothing and adds nothing. */
  lemma TryAddSettledNoop(st: AddState, c: Category)
    requires Settled(st.cats, c)
    ensures TryAdd(st, c).cats == st.cats && TryAdd(st, c).added == st.added
  {
  }

  lemma {:induction false} TryAddAllSettles(st: AddState, cs: seq<Category>)
    ensures forall c :: c in cs ==> Settled(TryAddAll(st, cs).cats, c)
    decreases |cs|
  {
    if cs != [] {
      var n := |cs| - 1;
      var mid := TryAddAll(st, cs[..n]);
      var r := TryAddAll(st, cs);
      TryAddAllSettles(st, cs[..n]);
      TryAddSettles(mid, cs[n]);
      forall c | c in cs ensures Settled(r.cats, c) {
        if c != cs[n] {
          var i :| 0 <= i < |cs| && cs[i] == c;
          assert cs[..n][i] == c;
          SettledPersists(mid.cats, r.cats, c);
        }
      }
    }
  }

  lemma {:induction false} TryAddAllSettledNoop(st: AddState, cs: seq<Category>)
    requires forall c :: c in cs ==> Settled(st.cats, c)
    ensures TryAddAll(st, cs).cats == st.cats && TryAddAll(st, cs).added == st.added
    decreases |cs|
  {
    if cs != [] {
      var n := |cs| - 1;
      TryAddAllSettledNoop(st, cs[..n]);
      TryAddSettledNoop(TryAddAll(st, cs[..n]), cs[n]);
    }
  }

  /** Running the same attempts again on the result writes nothing and adds nothing. */
  lemma TryAddAllTwice(st: AddState, cs: seq<Category>, again: AddState)
    requires again.cats == TryAddAll(st, cs).cats
    ensures TryAddAll(again, cs).cats == again.cats && TryAddAll(again, cs).added == again.added
  {
    TryAddAllSettles(st, cs);
    TryAddAllSettledNoop(again, cs);
  }

  // ---------------------------------------------------------------------
  // The loops.
  // ---------------------------------------------------------------------

  /** The state after one more item of the innermost loop. */
  lemma AddItemsStep(rule: SlugRule, st: AddState, l1: Level1, l2: Level2Def, items: seq<string>, k: nat)
    requires k < |items|
    ensures AddItems(rule, st, l1, l2, items[..k + 1]) == AddItem(rule, AddItems(rule, st, l1, l2, items[..k]), l1, l2, items[k])
  {
    assert items[..k + 1][..k] == items[..k];
  }

  /** One `findOne` and `create`, with `existingNames` kept equal to the stored names. */
  method TryAddOne(store: CategoryStore, existingNames: set<string>, c: Category, added: nat, skipped: nat)
      returns (names': set<string>, added': nat, skipped': nat)
    requires store.Valid() && existingNames == Level3Names(store.cats)
    modifies store
    ensures store.Valid() && names' == Level3Names(store.cats)
    ensures AddState(store.cats, added', skipped') == TryAdd(AddState(old(store.cats), added, skipped), c)
  {
    names', added', skipped' := existingNames, added, skipped;
    if c.level3.name in existingNames {
      skipped' := skipped' + 1;
      return;
    }
    ghost var before := store.cats;
    var outcome := store.Create(c);
    if outcome == Created {
      Level3NamesPush(before, c);
      names' := names' + {c.level3.name};
      added' := added' + 1;
    } else if outcome == DuplicateKey {
      skipped' := skipped' + 1;
    }
  }

  method AddItemsLoop(rule: SlugRule, store: CategoryStore, existingNames: set<string>, l1: Level1, l2: Level2Def,
                      added: nat, skipped: nat)
      returns (names': set<string>, added': nat, skipped': nat)
    requires store.Valid() && existingNames == Level3Names(store.cats)
    modifies store
    ensures store.Valid() && names' == Level3Names(store.cats)
    ensures AddState(store.cats, added', skipped') == AddItems(rule, AddState(old(store.cats), added, skipped), l1, l2, l2.items)
  {
    ghost var st := AddState(store.cats, added, skipped);
    names', added', skipped' := existingNames, added, skipped;
    var k := 0;
    while k < |l2.items|
      invariant 0 <= k <= |l2.items|
      invariant store.Valid() && names' == Level3Names(store.cats)
      invariant AddState(store.cats, added', skipped') == AddItems(rule, st, l1, l2, l2.items[..k])
    {
      AddItemsStep(rule, st, l1, l2, l2.items, k);
      names', added', skipped' := TryAddOne(store, names', NewCategory(rule, l1, l2, l2.items[k]), added', skipped');
      k := k + 1;
    }
    assert l2.items[..k] == l2.items;
  }

  method AddLevel2sLoop(rule: SlugRule, store: CategoryStore, existingNames: set<string>, l1: Level1, l2s: seq<Level2Def>,
                        added: nat, skipped: nat)
      returns (names': set<string>, added': nat, skipped': nat)
    requires store.Valid() && existingNames == Level3Names(store.cats)
    modifies store
    ensures store.Valid() && names' == Level3Names(store.cats)
    ensures AddState(store.cats, added', skipped') == AddLevel2s(rule, AddState(old(store.cats), added, skipped), l1, l2s)
  {
    ghost var st := AddState(store.cats, added, skipped);
    names', added', skipped' := existingNames, added, skipped;
    var j := 0;
    while j < |l2s|
      invariant 0 <= j <= |l2s|
      invariant store.Valid() && names' == Level3Names(store.cats)
      invariant AddState(store.cats, added', skipped') == AddLevel2s(rule, st, l1, l2s[..j])
    {
      assert l2s[..j + 1][..j] == l2s[..j];
      names', added', skipped' := AddItemsLoop(rule, store, names', l1, l2s[j], added', skipped');
      j := j + 1;
    }
    assert l2s[..j] == l2s;
  }

  /** The body of the level-1 loop: look up a sample of the level 1, or skip the group. */
  method AddGroupStep(rule: SlugRule, store: CategoryStore, existingNames: set<string>, g: Level1Group, added: nat, skipped: nat)
      returns (names': set<string>, added': nat, skipped': nat)
    requires store.Valid() && existingNames == Level3Names(store.cats)
    modifies store
    ensures store.Valid() && names' == Level3Names(store.cats)
    ensures AddState(store.cats, added', skipped') == AddGroup(rule, AddState(old(store.cats), added, skipped), g)
  {
    names', added', skipped' := existingNames, added, skipped;
    var sample := FirstWithLevel1(store.cats, g.level1Name);
    if sample.None? {
      return;
    }
    names', added', skipped' := AddLevel2sLoop(rule, store, names', sample.value.level1, g.level2List, added', skipped');
  }

  /**
   * `addMoreCategories`: the collection ends up as the specification run
   * `AddGroups` from the stored categories and zero counters.
   */
  method AddMore(rule: SlugRule, store: CategoryStore, groups: seq<Level1Group>) returns (added: nat, skipped: nat)
    requires store.Valid()
    modifies store
    ensures store.Valid()
    ensures AddState(store.cats, added, skipped) == AddGroups(rule, AddState(old(store.cats), 0, 0), groups)
  {
    ghost var st := AddState(store.cats, 0, 0);
    added, skipped := 0, 0;
    var existingNames := CollectNames(store.cats);
    var i := 0;
    while i < |groups|
      invariant 0 <= i <= |groups|
      invariant store.Valid() && existingNames == Level3Names(store.cats)
      invariant AddState(store.cats, added, skipped) == AddGroups(rule, st, groups[..i])
    {
      assert groups[..i + 1][..i] == groups[..i];
      existingNames, added, skipped := AddGroupStep(rule, store, existingNames, groups[i], added, skipped);
      i := i + 1;
    }
    assert groups[..i] == groups;
  }
}
