/**
 * Slot enumeration of the answer gap-filling engine
 * (`collectMissingSlots`, services/autoexpand.js).
 *
 * A slot is one (category, dimension, price range) triple. The engine walks
 * categories in store order, then each category's dimensions, then its price
 * ranges, and keeps the triples whose answer key is not stored yet.
 * A category's `_id` is its index in the category store.
 */
module ExpandSlots {
  import opened CategoryModel
  import opened AnswerModel

  datatype Slot = Slot(
    categoryId: nat,
    level1: string,
    level2: string,
    level3: string,
    dimension: string,
    priceRange: PriceRange,
    region: Region)

  /** A `'both'` level-1 region is generated as `'global'`; the other two are kept. */
  function SlotRegion(r: Region): (s: Region)
    ensures s != Both
    ensures r != Both ==> s == r
  {
    if r == Both then Global else r
  }

  /** The slot of category `c` (stored at index `id`) for one dimension and one band. */
  function SlotOf(c: Category, id: nat, d: Dimension, p: PriceRange): Slot {
    Slot(id, c.level1.name, c.level2.name, c.level3.name, d.name, p, SlotRegion(c.level1.region))
  }

  /** The answer key a slot would fill. */
  function SlotKey(s: Slot): AnswerKey {
    AnswerKey(s.categoryId, s.dimension, s.priceRange.name)
  }

  // ---------------------------------------------------------------------
  // The enumeration, written as the three nested loops walk it.
  // ---------------------------------------------------------------------

  /** Missing slots of one dimension over the bands `ps`, in band order. */
  function RowSlots(c: Category, id: nat, d: Dimension, ps: seq<PriceRange>, keys: set<AnswerKey>): seq<Slot>
    decreases |ps|
  {
    if ps == [] then []
    else
      var s := SlotOf(c, id, d, ps[|ps| - 1]);
      RowSlots(c, id, d, ps[..|ps| - 1], keys) + (if SlotKey(s) in keys then [] else [s])
  }

  /** Missing slots of one category over the dimensions `ds`, dimension by dimension. */
  function CategorySlots(c: Category, id: nat, ds: seq<Dimension>, keys: set<AnswerKey>): seq<Slot>
    decreases |ds|
  {
    if ds == [] then []
    else CategorySlots(c, id, ds[..|ds| - 1], keys) + RowSlots(c, id, ds[|ds| - 1], c.level3.priceRanges, keys)
  }

  /** Missing slots of the categories `cats` (ids are their indexes), category by category. */
  function MissingSlots(cats: seq<Category>, keys: set<AnswerKey>): seq<Slot>
    decreases |cats|
  {
    if cats == [] then []
    else
      var n := |cats| - 1;
      MissingSlots(cats[..n], keys) + CategorySlots(cats[n], n, cats[n].level3.dimensions, keys)
  }

  /** `s` is the slot of `c` for dimension `d` and one of the bands `ps`. */
  predicate InRow(c: Category, id: nat, d: Dimension, ps: seq<PriceRange>, s: Slot) {
    exists pi :: 0 <= pi < |ps| && s == SlotOf(c, id, d, ps[pi])
  }

  /** `s` is the slot of `c` for one of the dimensions `ds` and one of its bands. */
  predicate InCategory(c: Category, id: nat, ds: seq<Dimension>, s: Slot) {
    exists di :: 0 <= di < |ds| && InRow(c, id, ds[di], c.level3.priceRanges, s)
  }

  /** The independent description of a missing slot: a real triple whose key is not stored. */
  predicate IsMissingSlot(cats: seq<Category>, keys: set<AnswerKey>, s: Slot) {
    && s.categoryId < |cats|
    && SlotKey(s) !in keys
    && InCategory(cats[s.categoryId], s.categoryId, cats[s.categoryId].level3.dimensions, s)
  }

  lemma InRowSplit(c: Category, id: nat, d: Dimension, ps: seq<PriceRange>, s: Slot)
    requires ps != []
    ensures InRow(c, id, d, ps, s) <==> InRow(c, id, d, ps[..|ps| - 1], s) || s == SlotOf(c, id, d, ps[|ps| - 1])
  {
    var n := |ps| - 1;
    if InRow(c, id, d, ps, s) {
      var pi :| 0 <= pi < |ps| && s == SlotOf(c, id, d, ps[pi]);
      if pi < n {
        assert ps[..n][pi] == ps[pi];
      }
    }
    if InRow(c, id, d, ps[..n], s) {
      var pi :| 0 <= pi < n && s == SlotOf(c, id, d, ps[..n][pi]);
      assert ps[..n][pi] == ps[pi];
    }
  }

  lemma InCategorySplit(c: Category, id: nat, ds: seq<Dimension>, s: Slot)
    requires ds != []
    ensures InCategory(c, id, ds, s) <==> InCategory(c, id, ds[..|ds| - 1], s) || InRow(c, id, ds[|ds| - 1], c.level3.priceRanges, s)
  {
    var n := |ds| - 1;
    var ps := c.level3.priceRanges;
    if InCategory(c, id, ds, s) {
      var di :| 0 <= di < |ds| && InRow(c, id, ds[di], ps, s);
      if di < n {
        assert ds[..n][di] == ds[di];
      }
    }
    if InCategory(c, id, ds[..n], s) {
      var di :| 0 <= di < n && InRow(c, id, ds[..n][di], ps, s);
      assert ds[..n][di] == ds[di];
    }
  }

  lemma {:induction false} RowSlotsMembership(c: Category, id: nat, d: Dimension, ps: seq<PriceRange>, keys: set<AnswerKey>, s: Slot)
    ensures s in RowSlots(c, id, d, ps, keys) <==> SlotKey(s) !in keys && InRow(c, id, d, ps, s)
    decreases |ps|
  {
    if ps != [] {
      RowSlotsMembership(c, id, d, ps[..|ps| - 1], keys, s);
      InRowSplit(c, id, d, ps, s);
    }
  }

  lemma {:induction false} CategorySlotsMembership(c: Category, id: nat, ds: seq<Dimension>, keys: set<AnswerKey>, s: Slot)
    ensures s in CategorySlots(c, id, ds, keys) <==> SlotKey(s) !in keys && InCategory(c, id, ds, s)
    decreases |ds|
  {
    if ds != [] {
      CategorySlotsMembership(c, id, ds[..|ds| - 1], keys, s);
      RowSlotsMembership(c, id, ds[|ds| - 1], c.level3.priceRanges, keys, s);
      InCategorySplit(c, id, ds, s);
    }
  }

  /**
   * A slot is emitted exactly when it is one of the category × dimension ×
   * band triples and no answer with its key is stored.
   */
  lemma {:induction false} MissingSlotsMembership(cats: seq<Category>, keys: set<AnswerKey>, s: Slot)
    ensures s in MissingSlots(cats, keys) <==> IsMissingSlot(cats, keys, s)
    decreases |cats|
  {
    if cats != [] {
      var n := |cats| - 1;
      var c := cats[n];
      MissingSlotsMembership(cats[..n], keys, s);
      CategorySlotsMembership(c, n, c.level3.dimensions, keys, s);
      if s.categoryId < n {
        assert cats[..n][s.categoryId] == cats[s.categoryId];
      }
      if InCategory(c, n, c.level3.dimensions, s) {
        var di :| 0 <= di < |c.level3.dimensions| && InRow(c, n, c.level3.dimensions[di], c.level3.priceRanges, s);
        assert s.categoryId == n;
      }
    }
  }

  /** Every emitted slot carries its category's names and the generated region. */
  lemma MissingSlotFields(cats: seq<Category>, keys: set<AnswerKey>, s: Slot)
    requires s in MissingSlots(cats, keys)
    ensures s.categoryId < |cats|
    ensures s.level1 == cats[s.categoryId].level1.name
    ensures s.level2 == cats[s.categoryId].level2.name
    ensures s.level3 == cats[s.categoryId].level3.name
    ensures s.region == SlotRegion(cats[s.categoryId].level1.region)
    ensures s.region != Both
    ensures s.priceRange in cats[s.categoryId].level3.priceRanges
    ensures SlotKey(s) !in keys
  {
    MissingSlotsMembership(cats, keys, s);
    var c := cats[s.categoryId];
    var di :| 0 <= di < |c.level3.dimensions| && InRow(c, s.categoryId, c.level3.dimensions[di], c.level3.priceRanges, s);
  }

  /** A category with no dimensions or no price ranges contributes no slot. */
  lemma {:induction false} EmptyTablesGiveNoSlots(c: Category, id: nat, ds: seq<Dimension>, keys: set<AnswerKey>)
    requires ds == [] || c.level3.priceRanges == []
    ensures CategorySlots(c, id, ds, keys) == []
    decreases |ds|
  {
    if ds != [] {
      EmptyTablesGiveNoSlots(c, id, ds[..|ds| - 1], keys);
    }
  }

  /** Storing more keys can only remove slots: a slot missing later was missing before. */
  lemma MissingSlotsShrink(cats: seq<Category>, keys: set<AnswerKey>, more: set<AnswerKey>, s: Slot)
    requires keys <= more
    requires s in MissingSlots(cats, more)
    ensures s in MissingSlots(cats, keys)
  {
    MissingSlotsMembership(cats, more, s);
    MissingSlotsMembership(cats, keys, s);
  }

  // ---------------------------------------------------------------------
  // Counting slots of an empty answer store.
  // ---------------------------------------------------------------------

  /** The number of triples: the sum over categories of |dimensions| · |priceRanges|. */
  function SlotCount(cats: seq<Category>): nat
    decreases |cats|
  {
    if cats == [] then 0
    else
      var c := cats[|cats| - 1];
      SlotCount(cats[..|cats| - 1]) + |c.level3.dimensions| * |c.level3.priceRanges|
  }

  lemma {:induction false} RowSlotsAllMissing(c: Category, id: nat, d: Dimension, ps: seq<PriceRange>)
    ensures |RowSlots(c, id, d, ps, {})| == |ps|
    decreases |ps|
  {
    if ps != [] {
      RowSlotsAllMissing(c, id, d, ps[..|ps| - 1]);
    }
  }

  lemma {:induction false} CategorySlotsAllMissing(c: Category, id: nat, ds: seq<Dimension>)
    ensures |CategorySlots(c, id, ds, {})| == |ds| * |c.level3.priceRanges|
    decreases |ds|
  {
    if ds != [] {
      CategorySlotsAllMissing(c, id, ds[..|ds| - 1]);
      RowSlotsAllMissing(c, id, ds[|ds| - 1], c.level3.priceRanges);
      assert |ds| * |c.level3.priceRanges| == (|ds| - 1) * |c.level3.priceRanges| + |c.level3.priceRanges|;
    }
  }

  /** With no answer stored, every dimension × band pair of every category is a slot. */
  lemma {:induction false} EmptyStoreSlotCount(cats: seq<Category>)
    ensures |MissingSlots(cats, {})| == SlotCount(cats)
    decreases |cats|
  {
    if cats != [] {
      var n := |cats| - 1;
      EmptyStoreSlotCount(cats[..n]);
      CategorySlotsAllMissing(cats[n], n, cats[n].level3.dimensions);
    }
  }
}
