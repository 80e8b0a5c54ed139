/**
 * `seedFullCategories` (scripts/generate-full-categories.js): empty the
 * category collection, then insert the generated categories in batches of
 * 100 with `insertMany(…, {ordered: false})`; when a batch throws, `create`
 * each of its documents again and count the ones that succeed.
 */
module FullSeed {
  import opened CategoryModel

  const BatchSize: nat := 100

  /** The number of `create` calls that succeed when `batch` is created in turn (the fallback loop). */
  function CreatedCount(cats: seq<Category>, batch: seq<Category>): nat
    decreases |batch|
  {
    if batch == [] then 0
    else
      var n := |batch| - 1;
      CreatedCount(cats, batch[..n]) + (if CreateOutcomeOf(CreateAll(cats, batch[..n]), batch[n]) == Created then 1 else 0)
  }

  /** Counting the successful `create` calls counts exactly the documents they added. */
  lemma {:induction false} CreatedCountIsGrowth(cats: seq<Category>, batch: seq<Category>)
    ensures |CreateAll(cats, batch)| == |cats| + CreatedCount(cats, batch)
    decreases |batch|
  {
    if batch != [] {
      CreatedCountIsGrowth(cats, batch[..|batch| - 1]);
    }
  }

  /**
   * As written: a batch whose `insertMany` succeeded counts all of it; a
   * batch whose `insertMany` threw counts only the fallback `create` calls
   * that succeed, run after `insertMany` already stored what it could.
   */
  function AsWrittenBatchCount(stored: seq<Category>, batch: seq<Category>): nat {
    var inserted := CreateAll(stored, batch);
    if NoDuplicateRefusal(stored, batch) then |batch| else CreatedCount(inserted, batch)
  }

  /**
   * As written, a batch whose `insertMany` throws always counts zero, whatever
   * `insertMany` stored before throwing: every fallback `create` is refused.
   */
  lemma AsWrittenThrowingBatchCountsZero(stored: seq<Category>, batch: seq<Category>)
    requires UniqueLevel3(stored)
    requires !NoDuplicateRefusal(stored, batch)
    ensures AsWrittenBatchCount(stored, batch) == 0
  {
    var inserted := CreateAll(stored, batch);
    CreateAllRepeatIsNoop(stored, batch, batch);
    CreatedCountIsGrowth(inserted, batch);
  }

  /** Two valid categories of one batch with the same level-3 name and different slugs. */
  function SameNameA(): Category {
    Category(Level1("服装鞋帽", "fashion", "fa-box", Both), Level2("运动服饰", "sportswear", "fa-folder"),
             Level3("运动裤", "运动裤", [], []))
  }

  function SameNameB(): Category {
    Category(Level1("运动户外", "sports", "fa-box", Both), Level2("运动服饰", "sport-clothes", "fa-folder"),
             Level3("运动裤", "运动裤-1", [], []))
  }

  /**
   * The batch `[A, B]` where B repeats A's level-3 name: one category is
   * stored, but the as-written count for the batch is 0.
   */
  lemma AsWrittenUndercounts()
    ensures |CreateAll([], [SameNameA(), SameNameB()])| == 1
    ensures AsWrittenBatchCount([], [SameNameA(), SameNameB()]) == 0
  {
    var batch := [SameNameA(), SameNameB()];
    assert batch[..1] == [SameNameA()];
    assert CreateAll([], batch[..1]) == [SameNameA()];
    assert SameNameB().level3.name in Level3Names([SameNameA()]);
    assert CreateOutcomeOf([SameNameA()], SameNameB()) == DuplicateKey;
    assert CreateAll([], batch) == [SameNameA()];
    AsWrittenThrowingBatchCountsZero([], batch);
  }

  /** Corrected: a batch counts the documents it actually stored. */
  function BatchCount(stored: seq<Category>, batch: seq<Category>): (n: nat)
    requires UniqueLevel3(stored)
    ensures |CreateAll(stored, batch)| == |stored| + n
    ensures n <= |batch|
    ensures n == |batch| <==> |CreateAll(stored, batch)| == |stored| + |batch|
  {
    CreateAllGrowth(stored, batch);
    |CreateAll(stored, batch)| - |stored|
  }

  /** The fallback loop: `create` each document of `batch` in turn, counting the ones that succeed. */
  method CreateEach(store: CategoryStore, batch: seq<Category>) returns (created: nat)
    requires store.Valid()
    modifies store
    ensures store.Valid()
    ensures store.cats == CreateAll(old(store.cats), batch)
    ensures created == CreatedCount(old(store.cats), batch)
  {
    ghost var start := store.cats;
    created := 0;
    var k := 0;
    while k < |batch|
      invariant 0 <= k <= |batch|
      invariant store.Valid()
      invariant store.cats == CreateAll(start, batch[..k])
      invariant created == CreatedCount(start, batch[..k])
    {
      assert batch[..k + 1][..k] == batch[..k];
      var outcome := store.Create(batch[k]);
      if outcome == Created {
        created := created + 1;
      }
      k := k + 1;
    }
    assert batch[..k] == batch;
  }

  /** Inserting the prefix up to `i` and then the batch `[i..hi]` inserts the prefix up to `hi`. */
  lemma CreateAllPrefix(cats: seq<Category>, i: nat, hi: nat)
    requires i <= hi <= |cats|
    ensures CreateAll(CreateAll([], cats[..i]), cats[i..hi]) == CreateAll([], cats[..hi])
  {
    CreateAllAppend([], cats[..i], cats[i..hi]);
    assert cats[..i] + cats[i..hi] == cats[..hi];
  }

  /** Which count the seeding loop keeps: the script's as written, or the corrected one. */
  datatype CountRule = AsWritten | Corrected

  /** The end of the batch that starts at `i`. */
  function BatchEnd(cats: seq<Category>, i: nat): (hi: nat)
    requires i < |cats|
    ensures i < hi <= |cats| && hi - i <= BatchSize
  {
    if i + BatchSize < |cats| then i + BatchSize else |cats|
  }

  /** The as-written count summed over the batches from `i` on, each met by the categories stored before it. */
  function AsWrittenCountFrom(cats: seq<Category>, i: nat): nat
    decreases |cats| - i
  {
    if i >= |cats| then 0
    else
      var hi := BatchEnd(cats, i);
      AsWrittenBatchCount(CreateAll([], cats[..i]), cats[i..hi]) + AsWrittenCountFrom(cats, hi)
  }

  /** When no batch meets a duplicate key, the as-written count is the number of documents offered. */
  lemma {:induction false} AsWrittenCountNoRefusal(cats: seq<Category>, i: nat)
    requires forall j :: i <= j < |cats| ==> NoDuplicateRefusal(CreateAll([], cats[..j]), cats[j..BatchEnd(cats, j)])
    ensures AsWrittenCountFrom(cats, i) == if i >= |cats| then 0 else |cats| - i
    decreases |cats| - i
  {
    if i < |cats| {
      AsWrittenCountNoRefusal(cats, BatchEnd(cats, i));
    }
  }

  /**
   * The seeding loop: the collection ends up as the categories created one
   * by one in order. As written, `successCount` sums the as-written count of
   * each batch; corrected, it is the number of documents in the collection.
   */
  method SeedFullCategories(store: CategoryStore, cats: seq<Category>, rule: CountRule) returns (successCount: nat)
    modifies store
    ensures store.Valid()
    ensures store.cats == CreateAll([], cats)
    ensures rule == AsWritten ==> successCount == AsWrittenCountFrom(cats, 0)
    ensures rule == Corrected ==> successCount == |store.cats|
  {
    store.DeleteAll();
    successCount := 0;
    var i := 0;
    while i < |cats|
      invariant 0 <= i <= |cats|
      invariant store.Valid()
      invariant store.cats == CreateAll([], cats[..i])
      invariant rule == AsWritten ==> successCount + AsWrittenCountFrom(cats, i) == AsWrittenCountFrom(cats, 0)
      invariant rule == Corrected ==> successCount == |store.cats|
      decreases |cats| - i
    {
      var hi := BatchEnd(cats, i);
      var batch := cats[i..hi];
      var before := store.cats;
      var complete := store.InsertMany(batch);
      if rule == Corrected {
        successCount := successCount + BatchCount(before, batch);
      } else if complete {
        successCount := successCount + |batch|;
      }
      if !complete {
        ghost var inserted := store.cats;
        var created := CreateEach(store, batch);
        CreatedCountIsGrowth(inserted, batch);
        CreateAllRepeatIsNoop(before, batch, batch);
        if rule == AsWritten {
          successCount := successCount + created;
        }
      }
      CreateAllPrefix(cats, i, hi);
      i := hi;
    }
    assert cats[..i] == cats;
  }
}
