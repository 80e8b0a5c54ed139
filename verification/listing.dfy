/**
 * The home page's and the category page's computations in server.js: the
 * query filter, the two-level grouping of categories for rendering, the
 * grouping of a category's answers by price range, and the vote counter.
 */
module Listing {
  import opened Wrappers
  import opened Text
  import opened CategoryModel
  import opened AnswerModel

  // ---------------------------------------------------------------------
  // The filter object of the home page.
  // ---------------------------------------------------------------------

  function RegionName(r: Region): string {
    match r
    case Global => "global"
    case China => "china"
    case Both => "both"
  }

  /** `req.query.x || 'all'`: an absent or empty parameter means no restriction. */
  function OrAll(param: Option<string>): (v: string)
    ensures v != "" && (param.Some? && param.value != "" ==> v == param.value)
  {
    match param
    case Some(s) => if s != "" then s else "all"
    case None => "all"
  }

  /** The query object: each condition present only when its parameter is not `'all'`. */
  datatype Query = Query(regionIn: Option<set<string>>, level1: Option<string>, level2: Option<string>)

  function BuildQuery(region: string, level1: string, level2: string): Query {
    Query(
      if region != "all" then Some({region, "both"}) else None,
      if level1 != "all" then Some(level1) else None,
      if level2 != "all" then Some(level2) else None)
  }

  /** A category satisfies the query object the way the database applies it. */
  predicate Matches(q: Query, c: Category) {
    && (q.regionIn.None? || RegionName(c.level1.region) in q.regionIn.value)
    && (q.level1.None? || c.level1.name == q.level1.value)
    && (q.level2.None? || c.level2.name == q.level2.value)
  }

  /**
   * A region other than `'all'` keeps the categories of that region and the
   * `'both'` ones; a level-1 or level-2 name other than `'all'` keeps only
   * that name; `'all'` keeps everything.
   */
  lemma QueryMeaning(region: string, level1: string, level2: string, c: Category)
    ensures Matches(BuildQuery(region, level1, level2), c) <==>
      && (region == "all" || c.level1.region == Both || RegionName(c.level1.region) == region)
      && (level1 == "all" || c.level1.name == level1)
      && (level2 == "all" || c.level2.name == level2)
  {
  }

  // ---------------------------------------------------------------------
  // `grouped[l1].level2s[l2].items` of renderGrid and renderList.
  // ---------------------------------------------------------------------

  datatype Level2Bucket = Level2Bucket(name: string, icon: string, items: seq<Category>)
  datatype Level1Bucket = Level1Bucket(name: string, icon: string, level2s: seq<Level2Bucket>)

  function FindLevel1(gs: seq<Level1Bucket>, name: string): (r: Option<nat>)
    ensures r.Some? ==> r.value < |gs| && gs[r.value].name == name
    ensures r.None? <==> forall k :: 0 <= k < |gs| ==> gs[k].name != name
    decreases |gs|
  {
    if gs == [] then None
    else if gs[|gs| - 1].name == name then Some(|gs| - 1)
    else FindLevel1(gs[..|gs| - 1], name)
  }

  function FindLevel2(ss: seq<Level2Bucket>, name: string): (r: Option<nat>)
    ensures r.Some? ==> r.value < |ss| && ss[r.value].name == name
    ensures r.None? <==> forall k :: 0 <= k < |ss| ==> ss[k].name != name
    decreases |ss|
  {
    if ss == [] then None
    else if ss[|ss| - 1].name == name then Some(|ss| - 1)
    else FindLevel2(ss[..|ss| - 1], name)
  }

  /** Push `c` onto its level-2 bucket, opening the bucket (with `c`'s icon) on first sight. */
  function AddToLevel2s(ss: seq<Level2Bucket>, c: Category): seq<Level2Bucket> {
    match FindLevel2(ss, c.level2.name)
    case None => ss + [Level2Bucket(c.level2.name, c.level2.icon, [c])]
    case Some(j) => ss[j := ss[j].(items := ss[j].items + [c])]
  }

  /** Push `c` into its level-1 bucket, opening the bucket (with `c`'s icon) on first sight. */
  function AddToGroups(gs: seq<Level1Bucket>, c: Category): seq<Level1Bucket> {
    match FindLevel1(gs, c.level1.name)
    case None => gs + [Level1Bucket(c.level1.name, c.level1.icon, [Level2Bucket(c.level2.name, c.level2.icon, [c])])]
    case Some(k) => gs[k := gs[k].(level2s := AddToLevel2s(gs[k].level2s, c))]
  }

  /** The `forEach` over the categories. */
  function Group(cats: seq<Category>): seq<Level1Bucket>
    decreases |cats|
  {
    if cats == [] then [] else AddToGroups(Group(cats[..|cats| - 1]), cats[|cats| - 1])
  }

  /** The independent description of a bucket: the categories of one (level 1, level 2) pair, in input order. */
  function Select(cats: seq<Category>, l1: string, l2: string): seq<Category>
    decreases |cats|
  {
    if cats == [] then []
    else
      var c := cats[|cats| - 1];
      Select(cats[..|cats| - 1], l1, l2) + (if c.level1.name == l1 && c.level2.name == l2 then [c] else [])
  }

  /** There is a bucket for the pair. */
  predicate HasBucket(gs: seq<Level1Bucket>, l1: string, l2: string) {
    var k := FindLevel1(gs, l1);
    k.Some? && FindLevel2(gs[k.value].level2s, l2).Some?
  }

  predicate DistinctLevel2s(ss: seq<Level2Bucket>) {
    forall a, b :: 0 <= a < b < |ss| ==> ss[a].name != ss[b].name
  }

  predicate Level1KeysDistinct(gs: seq<Level1Bucket>) {
    forall k, l :: 0 <= k < l < |gs| ==> gs[k].name != gs[l].name
  }

  /** Within each level-1 bucket the level-2 keys are distinct and there is at least one. */
  predicate Level2KeysDistinct(gs: seq<Level1Bucket>) {
    forall k :: 0 <= k < |gs| ==> DistinctLevel2s(gs[k].level2s) && gs[k].level2s != []
  }

  /** Every bucket holds its pair's selection, which is not empty. */
  predicate BucketsSelect(gs: seq<Level1Bucket>, cats: seq<Category>) {
    forall k, j :: 0 <= k < |gs| && 0 <= j < |gs[k].level2s| ==>
      gs[k].level2s[j].items == Select(cats, gs[k].name, gs[k].level2s[j].name) && gs[k].level2s[j].items != []
  }

  predicate Covers(gs: seq<Level1Bucket>, cats: seq<Category>) {
    forall i :: 0 <= i < |cats| ==> HasBucket(gs, cats[i].level1.name, cats[i].level2.name)
  }

  /** `gs` groups exactly `cats`: distinct keys, each bucket its pair's selection, every category bucketed. */
  predicate GroupedAs(gs: seq<Level1Bucket>, cats: seq<Category>) {
    Level1KeysDistinct(gs) && Level2KeysDistinct(gs) && BucketsSelect(gs, cats) && Covers(gs, cats)
  }

  /** A pair without a bucket has no category in `cats`. */
  lemma NoBucketNoCategory(gs: seq<Level1Bucket>, cats: seq<Category>, l1: string, l2: string)
    requires Level1KeysDistinct(gs) && Covers(gs, cats) && !HasBucket(gs, l1, l2)
    ensures Select(cats, l1, l2) == []
  {
    forall i | 0 <= i < |cats| ensures !(cats[i].level1.name == l1 && cats[i].level2.name == l2) {
      assert HasBucket(gs, cats[i].level1.name, cats[i].level2.name);
    }
    SelectNone(cats, l1, l2);
  }

  lemma CoversPush(gs: seq<Level1Bucket>, cats: seq<Category>, c: Category)
    requires Covers(gs, cats) && HasBucket(gs, c.level1.name, c.level2.name)
    ensures Covers(gs, cats + [c])
  {
    forall i | 0 <= i < |cats + [c]| ensures HasBucket(gs, (cats + [c])[i].level1.name, (cats + [c])[i].level2.name) {
      if i < |cats| {
        assert (cats + [c])[i] == cats[i];
      }
    }
  }

  lemma SelectPush(cats: seq<Category>, c: Category, l1: string, l2: string)
    ensures Select(cats + [c], l1, l2) == Select(cats, l1, l2) + (if c.level1.name == l1 && c.level2.name == l2 then [c] else [])
  {
    assert (cats + [c])[..|cats|] == cats;
  }

  /** A pair with no bucket selects nothing. */
  lemma {:induction false} SelectNone(cats: seq<Category>, l1: string, l2: string)
    requires forall i :: 0 <= i < |cats| ==> !(cats[i].level1.name == l1 && cats[i].level2.name == l2)
    ensures Select(cats, l1, l2) == []
    decreases |cats|
  {
    if cats != [] {
      SelectNone(cats[..|cats| - 1], l1, l2);
    }
  }

  /** Adding `c` to the level-2 buckets keeps their names distinct. */
  lemma AddToLevel2sDistinct(ss: seq<Level2Bucket>, c: Category)
    requires DistinctLevel2s(ss)
    ensures DistinctLevel2s(AddToLevel2s(ss, c)) && AddToLevel2s(ss, c) != []
  {
    var ss' := AddToLevel2s(ss, c);
    if FindLevel2(ss, c.level2.name).None? {
      assert ss' == ss + [Level2Bucket(c.level2.name, c.level2.icon, [c])];
      forall a, b | 0 <= a < b < |ss'| ensures ss'[a].name != ss'[b].name {
        if b == |ss| {
          assert ss'[a] == ss[a];
        }
      }
    }
  }

  /** After adding `c`, each level-2 bucket of `c`'s level 1 holds its pair's selection of `cats + [c]`. */
  lemma AddToLevel2sSelects(ss: seq<Level2Bucket>, cats: seq<Category>, l1: string, c: Category)
    requires c.level1.name == l1 && DistinctLevel2s(ss)
    requires forall j :: 0 <= j < |ss| ==> ss[j].items == Select(cats, l1, ss[j].name) && ss[j].items != []
    requires FindLevel2(ss, c.level2.name).None? ==> Select(cats, l1, c.level2.name) == []
    ensures var ss' := AddToLevel2s(ss, c);
      forall j :: 0 <= j < |ss'| ==> ss'[j].items == Select(cats + [c], l1, ss'[j].name) && ss'[j].items != []
  {
    var ss' := AddToLevel2s(ss, c);
    forall j | 0 <= j < |ss'| ensures ss'[j].items == Select(cats + [c], l1, ss'[j].name) && ss'[j].items != [] {
      BucketAfterAdd(ss, cats, l1, c, j);
    }
  }

  lemma BucketAfterAdd(ss: seq<Level2Bucket>, cats: seq<Category>, l1: string, c: Category, j: nat)
    requires c.level1.name == l1 && DistinctLevel2s(ss) && j < |AddToLevel2s(ss, c)|
    requires j < |ss| ==> ss[j].items == Select(cats, l1, ss[j].name) && ss[j].items != []
    requires FindLevel2(ss, c.level2.name).None? ==> Select(cats, l1, c.level2.name) == []
    ensures var b := AddToLevel2s(ss, c)[j];
      b.items == Select(cats + [c], l1, b.name) && b.items != []
  {
    var ss' := AddToLevel2s(ss, c);
    SelectPush(cats, c, l1, ss'[j].name);
    match FindLevel2(ss, c.level2.name)
    case None =>
      if j < |ss| {
        assert ss'[j] == ss[j] && ss[j].name != c.level2.name;
      }
    case Some(i) =>
      if j != i {
        assert ss'[j] == ss[j] && ss[j].name != ss[i].name;
      }
  }

  /** After adding `c` there is a bucket for `c`'s level 2, and every earlier bucket is still found. */
  lemma AddToLevel2sFinds(ss: seq<Level2Bucket>, c: Category)
    ensures var ss' := AddToLevel2s(ss, c);
      && FindLevel2(ss', c.level2.name).Some?
      && (forall n :: FindLevel2(ss, n).Some? ==> FindLevel2(ss', n).Some?)
  {
    var ss' := AddToLevel2s(ss, c);
    assert |ss| <= |ss'|;
    forall n | FindLevel2(ss, n).Some? ensures FindLevel2(ss', n).Some? {
      var j := FindLevel2(ss, n).value;
      assert ss'[j].name == n;
    }
    match FindLevel2(ss, c.level2.name)
    case None =>
      assert ss'[|ss|].name == c.level2.name;
    case Some(j) =>
      assert ss'[j].name == c.level2.name;
  }

  /** The lookup by level-1 name depends only on the bucket names. */
  lemma {:induction false} FindLevel1SameNames(gs: seq<Level1Bucket>, gs': seq<Level1Bucket>, n: string)
    requires |gs| == |gs'| && forall k :: 0 <= k < |gs| ==> gs[k].name == gs'[k].name
    ensures FindLevel1(gs, n) == FindLevel1(gs', n)
    decreases |gs|
  {
    if gs != [] {
      FindLevel1SameNames(gs[..|gs| - 1], gs'[..|gs| - 1], n);
    }
  }

  /** A category with a level-1 name not seen before opens a new bucket at the end. */
  lemma AddNewLevel1(gs: seq<Level1Bucket>, cats: seq<Category>, c: Category)
    requires GroupedAs(gs, cats) && FindLevel1(gs, c.level1.name).None?
    ensures GroupedAs(AddToGroups(gs, c), cats + [c])
  {
    var l1 := c.level1.name;
    var gs' := gs + [Level1Bucket(l1, c.level1.icon, [Level2Bucket(c.level2.name, c.level2.icon, [c])])];
    assert AddToGroups(gs, c) == gs';
    NoBucketNoCategory(gs, cats, l1, c.level2.name);
    NewBucketSelects(gs, cats, c, gs');
    NewBucketCovers(gs, cats, c, gs');
  }

  lemma NewBucketSelects(gs: seq<Level1Bucket>, cats: seq<Category>, c: Category, gs': seq<Level1Bucket>)
    requires BucketsSelect(gs, cats) && Select(cats, c.level1.name, c.level2.name) == []
    requires FindLevel1(gs, c.level1.name).None?
    requires gs' == gs + [Level1Bucket(c.level1.name, c.level1.icon, [Level2Bucket(c.level2.name, c.level2.icon, [c])])]
    ensures BucketsSelect(gs', cats + [c])
  {
    forall k, j | 0 <= k < |gs'| && 0 <= j < |gs'[k].level2s|
      ensures gs'[k].level2s[j].items == Select(cats + [c], gs'[k].name, gs'[k].level2s[j].name)
    {
      if k < |gs| {
        assert gs'[k] == gs[k];
        assert gs[k].name != c.level1.name;
        SelectPush(cats, c, gs[k].name, gs[k].level2s[j].name);
      } else {
        SelectPush(cats, c, c.level1.name, c.level2.name);
      }
    }
  }

  lemma NewBucketCovers(gs: seq<Level1Bucket>, cats: seq<Category>, c: Category, gs': seq<Level1Bucket>)
    requires Covers(gs, cats) && FindLevel1(gs, c.level1.name).None?
    requires gs' == gs + [Level1Bucket(c.level1.name, c.level1.icon, [Level2Bucket(c.level2.name, c.level2.icon, [c])])]
    ensures Covers(gs', cats + [c])
  {
    assert gs'[..|gs|] == gs;
    forall i | 0 <= i < |cats| ensures HasBucket(gs', cats[i].level1.name, cats[i].level2.name) {
      assert HasBucket(gs, cats[i].level1.name, cats[i].level2.name);
      assert FindLevel1(gs', cats[i].level1.name) == FindLevel1(gs, cats[i].level1.name);
    }
    assert FindLevel1(gs', c.level1.name) == Some(|gs|);
    CoversPush(gs', cats, c);
  }

  /** A category of a known level 1 goes into that bucket's level-2 buckets. */
  lemma AddKnownLevel1(gs: seq<Level1Bucket>, cats: seq<Category>, c: Category, k: nat)
    requires GroupedAs(gs, cats) && FindLevel1(gs, c.level1.name) == Some(k)
    ensures GroupedAs(AddToGroups(gs, c), cats + [c])
  {
    var l1 := c.level1.name;
    var ss := gs[k].level2s;
    if FindLevel2(ss, c.level2.name).None? {
      NoBucketNoCategory(gs, cats, l1, c.level2.name);
    }
    AddToLevel2sSelects(ss, cats, l1, c);
    AddToLevel2sFinds(ss, c);
    var gs' := gs[k := gs[k].(level2s := AddToLevel2s(ss, c))];
    KnownBucketKeys(gs, c, k, gs');
    KnownBucketSelects(gs, cats, c, k, gs');
    KnownBucketCovers(gs, cats, c, k, gs');
  }

  lemma KnownBucketKeys(gs: seq<Level1Bucket>, c: Category, k: nat, gs': seq<Level1Bucket>)
    requires Level1KeysDistinct(gs) && Level2KeysDistinct(gs) && k < |gs|
    requires gs' == gs[k := gs[k].(level2s := AddToLevel2s(gs[k].level2s, c))]
    ensures Level1KeysDistinct(gs') && Level2KeysDistinct(gs')
  {
    AddToLevel2sDistinct(gs[k].level2s, c);
    forall k2 | 0 <= k2 < |gs'| ensures DistinctLevel2s(gs'[k2].level2s) && gs'[k2].level2s != [] {
      if k2 != k {
        assert gs'[k2] == gs[k2];
      }
    }
  }

  lemma KnownBucketSelects(gs: seq<Level1Bucket>, cats: seq<Category>, c: Category, k: nat, gs': seq<Level1Bucket>)
    requires BucketsSelect(gs, cats) && Level1KeysDistinct(gs) && k < |gs| && gs[k].name == c.level1.name
    requires var ss' := AddToLevel2s(gs[k].level2s, c);
      forall j :: 0 <= j < |ss'| ==> ss'[j].items == Select(cats + [c], c.level1.name, ss'[j].name) && ss'[j].items != []
    requires gs' == gs[k := gs[k].(level2s := AddToLevel2s(gs[k].level2s, c))]
    ensures BucketsSelect(gs', cats + [c])
  {
    forall k2, j | 0 <= k2 < |gs| && k2 != k && 0 <= j < |gs[k2].level2s|
      ensures gs'[k2].level2s[j].items == Select(cats + [c], gs'[k2].name, gs'[k2].level2s[j].name)
    {
      SelectPush(cats, c, gs[k2].name, gs[k2].level2s[j].name);
    }
  }

  lemma KnownBucketCovers(gs: seq<Level1Bucket>, cats: seq<Category>, c: Category, k: nat, gs': seq<Level1Bucket>)
    requires Covers(gs, cats) && Level1KeysDistinct(gs) && FindLevel1(gs, c.level1.name) == Some(k)
    requires var ss' := AddToLevel2s(gs[k].level2s, c);
      FindLevel2(ss', c.level2.name).Some? && forall n :: FindLevel2(gs[k].level2s, n).Some? ==> FindLevel2(ss', n).Some?
    requires gs' == gs[k := gs[k].(level2s := AddToLevel2s(gs[k].level2s, c))]
    ensures Covers(gs', cats + [c])
  {
    forall i | 0 <= i < |cats| ensures HasBucket(gs', cats[i].level1.name, cats[i].level2.name) {
      assert HasBucket(gs, cats[i].level1.name, cats[i].level2.name);
      FindLevel1SameNames(gs, gs', cats[i].level1.name);
    }
    FindLevel1SameNames(gs, gs', c.level1.name);
    CoversPush(gs', cats, c);
  }

  lemma AddToGroupsGroups(gs: seq<Level1Bucket>, cats: seq<Category>, c: Category)
    requires GroupedAs(gs, cats)
    ensures GroupedAs(AddToGroups(gs, c), cats + [c])
  {
    match FindLevel1(gs, c.level1.name)
    case None => AddNewLevel1(gs, cats, c);
    case Some(k) => AddKnownLevel1(gs, cats, c, k);
  }

  lemma {:induction false} GroupGroups(cats: seq<Category>)
    ensures GroupedAs(Group(cats), cats)
    decreases |cats|
  {
    if cats != [] {
      var n := |cats| - 1;
      GroupGroups(cats[..n]);
      GroupLast(cats);
    }
  }

  /** The last step of the grouping loop. */
  lemma GroupLast(cats: seq<Category>)
    requires cats != [] && GroupedAs(Group(cats[..|cats| - 1]), cats[..|cats| - 1])
    ensures GroupedAs(Group(cats), cats)
  {
    var n := |cats| - 1;
    SplitLast(cats);
    AddToGroupsGroups(Group(cats[..n]), cats[..n], cats[n]);
  }

  lemma SplitLast(cats: seq<Category>)
    requires cats != []
    ensures cats[..|cats| - 1] + [cats[|cats| - 1]] == cats
  {
  }

  /**
   * Each category lands in exactly one bucket: the bucket of its own
   * level-1 and level-2 names, which holds exactly the categories of that
   * pair in input order; no two buckets share a key.
   */
  lemma GroupExactlyOnce(cats: seq<Category>, i: nat)
    requires i < |cats|
    ensures var gs := Group(cats);
      var k := FindLevel1(gs, cats[i].level1.name);
      && k.Some?
      && var j := FindLevel2(gs[k.value].level2s, cats[i].level2.name);
      && j.Some?
      && gs[k.value].level2s[j.value].items == Select(cats, cats[i].level1.name, cats[i].level2.name)
      && (forall k2 :: 0 <= k2 < |gs| && gs[k2].name == cats[i].level1.name ==> k2 == k.value)
      && (forall j2 :: 0 <= j2 < |gs[k.value].level2s| && gs[k.value].level2s[j2].name == cats[i].level2.name ==> j2 == j.value)
  {
    GroupGroups(cats);
  }

  lemma {:induction false} SelectMembership(cats: seq<Category>, l1: string, l2: string, c: Category)
    ensures c in Select(cats, l1, l2) <==> c in cats && c.level1.name == l1 && c.level2.name == l2
    decreases |cats|
  {
    if cats != [] {
      var n := |cats| - 1;
      SelectMembership(cats[..n], l1, l2, c);
      assert cats == cats[..n] + [cats[n]];
    }
  }

  /** The level-1 names of the categories, in input order. */
  function Level1NameList(cats: seq<Category>): seq<string>
    decreases |cats|
  {
    if cats == [] then [] else Level1NameList(cats[..|cats| - 1]) + [cats[|cats| - 1].level1.name]
  }

  function BucketNames(gs: seq<Level1Bucket>): seq<string>
    decreases |gs|
  {
    if gs == [] then [] else BucketNames(gs[..|gs| - 1]) + [gs[|gs| - 1].name]
  }

  lemma {:induction false} BucketNamesIndex(gs: seq<Level1Bucket>)
    ensures |BucketNames(gs)| == |gs| && forall k :: 0 <= k < |gs| ==> BucketNames(gs)[k] == gs[k].name
    decreases |gs|
  {
    if gs != [] {
      BucketNamesIndex(gs[..|gs| - 1]);
    }
  }

  lemma {:induction false} Level1NameListIndex(cats: seq<Category>)
    ensures |Level1NameList(cats)| == |cats| && forall i :: 0 <= i < |cats| ==> Level1NameList(cats)[i] == cats[i].level1.name
    decreases |cats|
  {
    if cats != [] {
      Level1NameListIndex(cats[..|cats| - 1]);
    }
  }

  /** Only a new level-1 name opens a bucket, and it opens it at the end. */
  lemma AddToGroupsNames(gs: seq<Level1Bucket>, c: Category)
    ensures BucketNames(AddToGroups(gs, c))
      == BucketNames(gs) + (if c.level1.name in BucketNames(gs) then [] else [c.level1.name])
  {
    var gs' := AddToGroups(gs, c);
    BucketNamesIndex(gs);
    BucketNamesIndex(gs');
    if c.level1.name in BucketNames(gs) {
      var k :| 0 <= k < |gs| && BucketNames(gs)[k] == c.level1.name;
      assert FindLevel1(gs, c.level1.name).Some?;
    } else {
      assert FindLevel1(gs, c.level1.name).None?;
    }
  }

  /** Level-1 buckets come in order of first appearance: their names are the deduplicated level-1 names. */
  lemma {:induction false} GroupOrder(cats: seq<Category>)
    ensures BucketNames(Group(cats)) == Dedup(Level1NameList(cats))
    decreases |cats|
  {
    if cats != [] {
      var n := |cats| - 1;
      var gs := Group(cats[..n]);
      GroupOrder(cats[..n]);
      AddToGroupsNames(gs, cats[n]);
      Level1NameListLast(cats);
      DedupPush(Level1NameList(cats[..n]), cats[n].level1.name);
    }
  }

  lemma Level1NameListLast(cats: seq<Category>)
    requires cats != []
    ensures Level1NameList(cats) == Level1NameList(cats[..|cats| - 1]) + [cats[|cats| - 1].level1.name]
  {
  }

  /** The body of the loop: open the missing buckets empty, then push. */
  method GroupOne(gs: seq<Level1Bucket>, c: Category) returns (grouped: seq<Level1Bucket>)
    ensures grouped == AddToGroups(gs, c)
  {
    var k := FindLevel1(gs, c.level1.name);
    if k.None? {
      var l1Data := Level1Bucket(c.level1.name, c.level1.icon, []);
      var level2s := PushLevel2(l1Data.level2s, c);
      grouped := gs + [l1Data.(level2s := level2s)];
      assert FindLevel1(gs, c.level1.name) == None;
      assert FindLevel2([], c.level2.name) == None;
      assert level2s == [Level2Bucket(c.level2.name, c.level2.icon, [c])];
      assert grouped == AddToGroups(gs, c);
    } else {
      var l1Data := gs[k.value];
      var level2s := PushLevel2(l1Data.level2s, c);
      grouped := gs[k.value := l1Data.(level2s := level2s)];
      assert FindLevel1(gs, c.level1.name) == Some(k.value);
      assert grouped == AddToGroups(gs, c);
    }
  }

  /** Open the level-2 bucket empty when missing, then push. */
  method PushLevel2(ss: seq<Level2Bucket>, c: Category) returns (ss': seq<Level2Bucket>)
    ensures ss' == AddToLevel2s(ss, c)
  {
    var j := FindLevel2(ss, c.level2.name);
    if j.None? {
      var bucket := Level2Bucket(c.level2.name, c.level2.icon, []);
      bucket := bucket.(items := bucket.items + [c]);
      ss' := ss + [bucket];
      assert bucket == Level2Bucket(c.level2.name, c.level2.icon, [c]);
      assert FindLevel2(ss, c.level2.name) == None;
      assert AddToLevel2s(ss, c) == ss + [Level2Bucket(c.level2.name, c.level2.icon, [c])];
    } else {
      ss' := ss[j.value := ss[j.value].(items := ss[j.value].items + [c])];
    }
  }

  /** The grouping loop of renderGrid/renderList. */
  method GroupForRender(cats: seq<Category>) returns (grouped: seq<Level1Bucket>)
    ensures grouped == Group(cats)
  {
    grouped := [];
    var i := 0;
    while i < |cats|
      invariant 0 <= i <= |cats|
      invariant grouped == Group(cats[..i])
    {
      assert cats[..i + 1][..i] == cats[..i];
      grouped := GroupOne(grouped, cats[i]);
      i := i + 1;
    }
    assert cats[..i] == cats;
  }

  // ---------------------------------------------------------------------
  // answersByPriceRange of the category page.
  // ---------------------------------------------------------------------

  /** `answers.filter(a => a.priceRange.name === name)`. */
  function WithRange(answers: seq<Answer>, name: string): (r: seq<Answer>)
    ensures forall a :: a in r <==> a in answers && a.priceRange.name == name
    ensures |r| <= |answers|
    decreases |answers|
  {
    if answers == [] then []
    else
      var a := answers[|answers| - 1];
      WithRange(answers[..|answers| - 1], name) + (if a.priceRange.name == name then [a] else [])
  }

  /** The `forEach` over the declared ranges, one entry per range name. */
  function ByPriceRange(ranges: seq<PriceRange>, answers: seq<Answer>): map<string, seq<Answer>>
    decreases |ranges|
  {
    if ranges == [] then map[]
    else
      var r := ranges[|ranges| - 1];
      ByPriceRange(ranges[..|ranges| - 1], answers)[r.name := WithRange(answers, r.name)]
  }

  /** Some declared range has the name `n`. */
  predicate Declared(ranges: seq<PriceRange>, n: string) {
    exists i :: 0 <= i < |ranges| && ranges[i].name == n
  }

  /**
   * The groups are keyed by exactly the declared range names, and each
   * holds exactly the answers of that range name, in stored order; an
   * answer of an undeclared range is in no group.
   */
  lemma {:induction false} ByPriceRangeContents(ranges: seq<PriceRange>, answers: seq<Answer>)
    ensures forall n :: n in ByPriceRange(ranges, answers) <==> Declared(ranges, n)
    ensures forall n :: n in ByPriceRange(ranges, answers) ==> ByPriceRange(ranges, answers)[n] == WithRange(answers, n)
    decreases |ranges|
  {
    if ranges != [] {
      var n := |ranges| - 1;
      ByPriceRangeContents(ranges[..n], answers);
      forall x ensures Declared(ranges, x) <==> Declared(ranges[..n], x) || x == ranges[n].name {
        if Declared(ranges, x) && x != ranges[n].name {
          var i :| 0 <= i < |ranges| && ranges[i].name == x;
          assert ranges[..n][i].name == x;
        }
        if Declared(ranges[..n], x) {
          var i :| 0 <= i < n && ranges[..n][i].name == x;
          assert ranges[i].name == x;
        }
      }
    }
  }

  method GroupByPriceRange(ranges: seq<PriceRange>, answers: seq<Answer>) returns (m: map<string, seq<Answer>>)
    ensures m == ByPriceRange(ranges, answers)
  {
    m := map[];
    var i := 0;
    while i < |ranges|
      invariant 0 <= i <= |ranges|
      invariant m == ByPriceRange(ranges[..i], answers)
    {
      assert ranges[..i + 1][..i] == ranges[..i];
      m := m[ranges[i].name := WithRange(answers, ranges[i].name)];
      i := i + 1;
    }
    assert ranges[..i] == ranges;
  }

  // ---------------------------------------------------------------------
  // POST /api/vote
  // ---------------------------------------------------------------------

  datatype Feedback = Feedback(likes: nat, dislikes: nat)

  /** `type === 'like'` increments likes; every other type increments dislikes. */
  function Vote(fb: Feedback, voteType: string): (r: Feedback)
    ensures r.likes + r.dislikes == fb.likes + fb.dislikes + 1
    ensures r.likes == fb.likes + 1 <==> voteType == "like"
    ensures r.dislikes == fb.dislikes + 1 <==> voteType != "like"
  {
    if voteType == "like" then fb.(likes := fb.likes + 1) else fb.(dislikes := fb.dislikes + 1)
  }
}
