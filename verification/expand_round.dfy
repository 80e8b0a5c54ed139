/**
 * One round of the gap-filling engine (`collectMissingSlots` and
 * `expandAnswers`, services/autoexpand.js): collect the missing slots, take
 * the first `MAX_PER_RUN` of them, attempt each once, and count the answers
 * that were stored. A slot whose completion or parse fails, or whose answer
 * the store refuses, is skipped and the round goes on.
 *
 * The pauses between slots and between rounds, and the re-scheduling of the
 * next round, are timers and are not modelled: a call of `ExpandAnswers` is
 * one round.
 */
module ExpandRound {
  import opened Wrappers
  import opened CategoryModel
  import opened AnswerModel
  import opened ExpandSlots
  import opened ExpandReply

  /** `MAX_PER_RUN` when `AUTOEXPAND_MAX_PER_RUN` is unset. */
  const DefaultMaxPerRun: int := 20

  /** `slots.slice(0, max)`: a prefix; a negative end counts back from the end of the list. */
  function TakeBatch(slots: seq<Slot>, max: int): (b: seq<Slot>)
    ensures b <= slots
    ensures max >= 0 ==> |b| == (if |slots| < max then |slots| else max)
    ensures max < 0 ==> |b| == (if |slots| + max < 0 then 0 else |slots| + max)
  {
    if max >= 0 then slots[..if |slots| < max then |slots| else max]
    else slots[..if |slots| + max < 0 then 0 else |slots| + max]
  }

  /** The stored answers and the success counter of a round in progress. */
  datatype RoundState = RoundState(answers: seq<Answer>, success: nat)

  /**
   * The round after attempting the slots of `batch` in order, each once. A
   * slot without a generated answer changes nothing; a generated answer is
   * saved and counted only when the store accepts it.
   */
  function Drain(answers: seq<Answer>, batch: seq<Slot>, gen: Slot -> Option<Answer>): RoundState
    decreases |batch|
  {
    if batch == [] then RoundState(answers, 0)
    else DrainOne(Drain(answers, batch[..|batch| - 1], gen), gen(batch[|batch| - 1]))
  }

  /** One attempt: nothing without an answer; otherwise a save, counted when accepted. */
  function DrainOne(st: RoundState, generated: Option<Answer>): RoundState {
    match generated
    case None => st
    case Some(a) => RoundState(AfterSave(st.answers, a), st.success + if CanSave(st.answers, a) then 1 else 0)
  }

  lemma DrainStep(answers: seq<Answer>, batch: seq<Slot>, i: nat, gen: Slot -> Option<Answer>)
    requires i < |batch|
    ensures Drain(answers, batch[..i + 1], gen) == DrainOne(Drain(answers, batch[..i], gen), gen(batch[i]))
  {
    assert batch[..i + 1][..i] == batch[..i];
  }

  /** The engine's generator: `Generate` with the completion service and the parser fixed. */
  function Generator(complete: string -> Option<string>, parse: string -> Option<AIResult>): Slot -> Option<Answer> {
    s => Generate(s, complete, parse)
  }

  /** A generator whose answers fill the key of the slot they were generated for. */
  ghost predicate KeyFaithful(gen: Slot -> Option<Answer>) {
    forall s :: gen(s).Some? ==> KeyOf(gen(s).value) == SlotKey(s)
  }

  /** The engine's generator answers the slot it is asked about. */
  lemma GeneratorKeyFaithful(complete: string -> Option<string>, parse: string -> Option<AIResult>)
    ensures KeyFaithful(Generator(complete, parse))
  {
    forall s | Generator(complete, parse)(s).Some?
      ensures KeyOf(Generator(complete, parse)(s).value) == SlotKey(s)
    {
      var res :| Generate(s, complete, parse).value == GenerateAnswer(s, res);
    }
  }

  /** The batch of a round over `cats` with `answers` stored. */
  function Batch(cats: seq<Category>, answers: seq<Answer>, max: int): seq<Slot> {
    TakeBatch(MissingSlots(cats, Keys(answers)), max)
  }

  lemma RowSlotsStep(pre: seq<Slot>, c: Category, id: nat, d: Dimension, ps: seq<PriceRange>, k: nat, keys: set<AnswerKey>)
    requires k < |ps|
    ensures pre + RowSlots(c, id, d, ps[..k + 1], keys)
         == (pre + RowSlots(c, id, d, ps[..k], keys))
            + (if SlotKey(SlotOf(c, id, d, ps[k])) in keys then [] else [SlotOf(c, id, d, ps[k])])
  {
    assert ps[..k + 1][..k] == ps[..k];
  }

  lemma CategorySlotsStep(pre: seq<Slot>, c: Category, id: nat, ds: seq<Dimension>, k: nat, keys: set<AnswerKey>)
    requires k < |ds|
    ensures pre + CategorySlots(c, id, ds[..k + 1], keys)
         == (pre + CategorySlots(c, id, ds[..k], keys)) + RowSlots(c, id, ds[k], c.level3.priceRanges, keys)
  {
    assert ds[..k + 1][..k] == ds[..k];
  }

  lemma MissingSlotsStep(cats: seq<Category>, k: nat, keys: set<AnswerKey>)
    requires k < |cats|
    ensures MissingSlots(cats[..k + 1], keys) == MissingSlots(cats[..k], keys) + CategorySlots(cats[k], k, cats[k].level3.dimensions, keys)
  {
    assert cats[..k + 1][..k] == cats[..k];
  }

  /**
   * `collectMissingSlots`: the three nested loops, one `findOne` per
   * (category, dimension, band), pushing each triple with no stored answer.
   */
  method CollectMissingSlots(categories: CategoryStore, store: AnswerStore) returns (slots: seq<Slot>)
    ensures slots == MissingSlots(categories.cats, Keys(store.answers))
  {
    var cats := categories.cats;
    ghost var keys := Keys(store.answers);
    slots := [];
    var ci := 0;
    while ci < |cats|
      invariant 0 <= ci <= |cats|
      invariant slots == MissingSlots(cats[..ci], keys)
    {
      ghost var before := slots;
      var c := cats[ci];
      var ds := c.level3.dimensions;
      var ps := c.level3.priceRanges;
      var di := 0;
      while di < |ds|
        invariant 0 <= di <= |ds|
        invariant slots == before + CategorySlots(c, ci, ds[..di], keys)
      {
        ghost var row := slots;
        var pi := 0;
        while pi < |ps|
          invariant 0 <= pi <= |ps|
          invariant slots == row + RowSlots(c, ci, ds[di], ps[..pi], keys)
        {
          RowSlotsStep(row, c, ci, ds[di], ps, pi, keys);
          var found := store.HasKey(AnswerKey(ci, ds[di].name, ps[pi].name));
          if !found {
            slots := slots + [Slot(ci, c.level1.name, c.level2.name, c.level3.name, ds[di].name, ps[pi], SlotRegion(c.level1.region))];
          }
          pi := pi + 1;
        }
        assert ps[..pi] == ps;
        CategorySlotsStep(before, c, ci, ds, di, keys);
        di := di + 1;
      }
      assert ds[..di] == ds;
      MissingSlotsStep(cats, ci, keys);
      ci := ci + 1;
    }
    assert cats[..ci] == cats;
  }

  /** The `for` loop of `expandAnswers`: each slot of `batch` attempted once, in order. */
  method AttemptAll(store: AnswerStore, batch: seq<Slot>, gen: Slot -> Option<Answer>) returns (success: nat)
    requires store.Valid()
    modifies store
    ensures store.Valid()
    ensures RoundState(store.answers, success) == Drain(old(store.answers), batch, gen)
  {
    success := 0;
    var i := 0;
    while i < |batch|
      invariant 0 <= i <= |batch|
      invariant store.Valid()
      invariant RoundState(store.answers, success) == Drain(old(store.answers), batch[..i], gen)
    {
      DrainStep(old(store.answers), batch, i, gen);
      var generated := gen(batch[i]);
      if generated.Some? {
        var ok := store.Save(generated.value);
        if ok {
          success := success + 1;
        }
      }
      i := i + 1;
    }
    assert batch[..i] == batch;
  }

  /**
   * `expandAnswers`, one round: `batch` is the first `maxPerRun` missing
   * slots and `success` counts the answers stored; the store ends as the
   * specification `Drain` says.
   */
  method ExpandAnswers(
    categories: CategoryStore, store: AnswerStore,
    complete: string -> Option<string>, parse: string -> Option<AIResult>, maxPerRun: int)
    returns (batch: seq<Slot>, success: nat)
    requires store.Valid()
    modifies store
    ensures store.Valid()
    ensures batch == Batch(categories.cats, old(store.answers), maxPerRun)
    ensures RoundState(store.answers, success) == Drain(old(store.answers), batch, Generator(complete, parse))
  {
    var slots := CollectMissingSlots(categories, store);
    if |slots| == 0 {
      batch, success := [], 0;
      return;
    }
    batch := TakeBatch(slots, maxPerRun);
    success := AttemptAll(store, batch, Generator(complete, parse));
  }

  // ---------------------------------------------------------------------
  // What a round guarantees.
  // ---------------------------------------------------------------------

  /**
   * A round only appends: the stored answers before it are a prefix of those
   * after it, the success counter is the number of answers added, and it
   * never exceeds the batch size.
   */
  lemma {:induction false} DrainGrowth(answers: seq<Answer>, batch: seq<Slot>, gen: Slot -> Option<Answer>)
    ensures answers <= Drain(answers, batch, gen).answers
    ensures |Drain(answers, batch, gen).answers| == |answers| + Drain(answers, batch, gen).success
    ensures Drain(answers, batch, gen).success <= |batch|
    decreases |batch|
  {
    if batch != [] {
      DrainGrowth(answers, batch[..|batch| - 1], gen);
    }
  }

  /** A round keeps the answer key unique. */
  lemma {:induction false} DrainKeepsUnique(answers: seq<Answer>, batch: seq<Slot>, gen: Slot -> Option<Answer>)
    requires UniqueKeys(answers)
    ensures UniqueKeys(Drain(answers, batch, gen).answers)
    decreases |batch|
  {
    if batch != [] {
      var st := Drain(answers, batch[..|batch| - 1], gen);
      DrainKeepsUnique(answers, batch[..|batch| - 1], gen);
      var g := gen(batch[|batch| - 1]);
      if g.Some? {
        SavePreservesUnique(st.answers, g.value);
      }
    }
  }

  /** Stored keys only grow over a round. */
  lemma DrainKeysGrow(answers: seq<Answer>, batch: seq<Slot>, gen: Slot -> Option<Answer>)
    ensures Keys(answers) <= Keys(Drain(answers, batch, gen).answers)
  {
    var after := Drain(answers, batch, gen).answers;
    DrainGrowth(answers, batch, gen);
    forall k | k in Keys(answers) ensures k in Keys(after) {
      var i :| 0 <= i < |answers| && k == KeyOf(answers[i]);
      assert after[i] == answers[i];
    }
  }

  /** Every key a round adds is the key of one of its batch slots. */
  lemma {:induction false} DrainNewKeysFromBatch(answers: seq<Answer>, batch: seq<Slot>, gen: Slot -> Option<Answer>, k: AnswerKey)
    requires k in Keys(Drain(answers, batch, gen).answers)
    requires k !in Keys(answers)
    requires KeyFaithful(gen)
    ensures exists j :: 0 <= j < |batch| && SlotKey(batch[j]) == k
    decreases |batch|
  {
    if batch == [] {
      assert false;
    } else {
      var n := |batch| - 1;
      var st := Drain(answers, batch[..n], gen);
      if k in Keys(st.answers) {
        DrainNewKeysFromBatch(answers, batch[..n], gen, k);
        var j :| 0 <= j < n && SlotKey(batch[..n][j]) == k;
        assert batch[..n][j] == batch[j];
      } else {
        var g := gen(batch[n]);
        assert g.Some?;
        SaveKeys(st.answers, g.value);
        assert SlotKey(batch[n]) == k;
      }
    }
  }

  /**
   * Failures stay local: every batch slot whose answer was generated and
   * passes validation has its key stored after the round, whatever
   * happened to the slots before it.
   */
  lemma {:induction false} DrainFillsGenerated(answers: seq<Answer>, batch: seq<Slot>, gen: Slot -> Option<Answer>, j: int)
    requires 0 <= j < |batch|
    requires gen(batch[j]).Some?
    requires gen(batch[j]).value.HasRequired()
    requires KeyFaithful(gen)
    ensures SlotKey(batch[j]) in Keys(Drain(answers, batch, gen).answers)
    decreases |batch|
  {
    var n := |batch| - 1;
    var st := Drain(answers, batch[..n], gen);
    var g := gen(batch[n]);
    if j < n {
      assert batch[..n][j] == batch[j];
      DrainFillsGenerated(answers, batch[..n], gen, j);
      if g.Some? {
        SaveKeepsKeys(st.answers, g.value);
      }
    } else {
      SaveStoresKey(st.answers, g.value);
    }
  }

  lemma SaveKeepsKeys(answers: seq<Answer>, a: Answer)
    ensures Keys(answers) <= Keys(AfterSave(answers, a))
  {
    forall k | k in Keys(answers) ensures k in Keys(AfterSave(answers, a)) {
      var i :| 0 <= i < |answers| && k == KeyOf(answers[i]);
      assert AfterSave(answers, a)[i] == answers[i];
    }
  }

  /** After a save of a valid answer its key is stored, either already or now. */
  lemma SaveStoresKey(answers: seq<Answer>, a: Answer)
    requires a.HasRequired()
    ensures KeyOf(a) in Keys(AfterSave(answers, a))
  {
    if CanSave(answers, a) {
      assert AfterSave(answers, a)[|answers|] == a;
    }
  }

  /**
   * A round whose batch holds every missing slot, and in which every slot
   * gets an answer, leaves no slot missing (categories satisfy the schema and
   * name every dimension).
   */
  lemma RoundFillsAll(cats: seq<Category>, answers: seq<Answer>, complete: string -> Option<string>, parse: string -> Option<AIResult>, max: int)
    requires forall i :: 0 <= i < |cats| ==> cats[i].HasRequired()
    requires forall i, d :: 0 <= i < |cats| && d in cats[i].level3.dimensions ==> d.name != ""
    requires |MissingSlots(cats, Keys(answers))| <= max
    requires forall s :: s in MissingSlots(cats, Keys(answers)) ==> Generate(s, complete, parse).Some?
    ensures MissingSlots(cats, Keys(Drain(answers, Batch(cats, answers, max), Generator(complete, parse)).answers)) == []
  {
    var gen := Generator(complete, parse);
    GeneratorKeyFaithful(complete, parse);
    var missing := MissingSlots(cats, Keys(answers));
    var batch := Batch(cats, answers, max);
    assert batch == missing;
    var after := Drain(answers, batch, gen).answers;
    var left := MissingSlots(cats, Keys(after));
    if left != [] {
      var s := left[0];
      DrainKeysGrow(answers, batch, gen);
      MissingSlotsShrink(cats, Keys(answers), Keys(after), s);
      MissingSlotFields(cats, Keys(answers), s);
      MissingSlotFields(cats, Keys(after), s);
      var j :| 0 <= j < |batch| && batch[j] == s;
      var g := Generate(s, complete, parse);
      var res :| g.value == GenerateAnswer(s, res);
      assert s.dimension != "" by {
        MissingSlotsMembership(cats, Keys(answers), s);
        var c := cats[s.categoryId];
        var di :| 0 <= di < |c.level3.dimensions| && InRow(c, s.categoryId, c.level3.dimensions[di], c.level3.priceRanges, s);
        assert c.level3.dimensions[di] in c.level3.dimensions;
      }
      DrainFillsGenerated(answers, batch, gen, j);
      assert false;
    }
  }
}
