/**
 * The Answer document (lib/models/Answer.js): one generated recommendation
 * per (category, dimension, price-range name), and the collection that
 * enforces that key's unique index. `generatedAt` and the timestamps are
 * clock values and are not modelled.
 */
module AnswerModel {
  import opened CategoryModel

  /** The price-range snapshot copied into an answer (no unit). */
  datatype BandSnapshot = BandSnapshot(name: string, min: int, max: int)
  datatype Price = Price(value: int, currency: string)
  datatype Product = Product(name: string, brand: string, price: Price)
  datatype Recommendation = Recommendation(summary: string, detailed: string, pros: seq<string>, cons: seq<string>)
  datatype Provenance = Provenance(isGenerated: bool, provider: string, model: string)

  datatype Answer = Answer(
    categoryId: nat,
    level1: string,
    level2: string,
    level3: string,
    dimension: string,
    priceRange: BandSnapshot,
    product: Product,
    recommendation: Recommendation,
    region: Region,
    aiGenerated: Provenance)
  {
    /**
     * Mongoose validation: the required strings are non-empty, and `region`
     * is one of the enum values `global`/`china` (`both` is a level-1 value only).
     */
    predicate HasRequired() {
      level1 != "" && level2 != "" && level3 != "" && dimension != ""
      && product.name != "" && product.brand != "" && region != Both
    }
  }

  // Schema defaults.
  const DefaultCurrency: string := "CNY"
  const DefaultIsGenerated: bool := true
  const DefaultAnswerRegion: Region := Global

  /** The unique index `{categoryId, dimension, 'priceRange.name'}`. */
  datatype AnswerKey = AnswerKey(categoryId: nat, dimension: string, priceRangeName: string)

  function KeyOf(a: Answer): AnswerKey {
    AnswerKey(a.categoryId, a.dimension, a.priceRange.name)
  }

  function Keys(answers: seq<Answer>): set<AnswerKey> {
    set i | 0 <= i < |answers| :: KeyOf(answers[i])
  }

  /** No two stored answers share a key. */
  predicate UniqueKeys(answers: seq<Answer>) {
    forall i, j :: 0 <= i < j < |answers| ==> KeyOf(answers[i]) != KeyOf(answers[j])
  }

  /** `answer.save()` succeeds exactly when validation passes and the key is still free. */
  function CanSave(answers: seq<Answer>, a: Answer): bool {
    a.HasRequired() && KeyOf(a) !in Keys(answers)
  }

  function AfterSave(answers: seq<Answer>, a: Answer): seq<Answer> {
    if CanSave(answers, a) then answers + [a] else answers
  }

  /** Saving adds the answer's key when accepted and no other key. */
  lemma SaveKeys(answers: seq<Answer>, a: Answer)
    ensures Keys(AfterSave(answers, a)) == Keys(answers) + (if CanSave(answers, a) then {KeyOf(a)} else {})
  {
    var r := AfterSave(answers, a);
    if CanSave(answers, a) {
      forall k | k in Keys(r) ensures k in Keys(answers) + {KeyOf(a)} {
        var i :| 0 <= i < |r| && k == KeyOf(r[i]);
        if i < |answers| {
          assert k in Keys(answers);
        }
      }
      forall k | k in Keys(answers) + {KeyOf(a)} ensures k in Keys(r) {
        if k == KeyOf(a) {
          assert KeyOf(r[|answers|]) == k;
        } else {
          var i :| 0 <= i < |answers| && k == KeyOf(answers[i]);
          assert KeyOf(r[i]) == k;
        }
      }
    }
  }

  /** Saving keeps the key index unique; a refused answer leaves the stored answers as they were. */
  lemma SavePreservesUnique(answers: seq<Answer>, a: Answer)
    requires UniqueKeys(answers)
    ensures UniqueKeys(AfterSave(answers, a))
  {
    if CanSave(answers, a) {
      forall i | 0 <= i < |answers|
        ensures KeyOf(answers[i]) != KeyOf(a)
      {
        assert KeyOf(answers[i]) in Keys(answers);
      }
    }
  }

  /** Saving the same answer twice stores it once; the second save is refused as a duplicate. */
  lemma SaveTwiceStoresOnce(answers: seq<Answer>, a: Answer)
    requires UniqueKeys(answers)
    ensures !CanSave(AfterSave(answers, a), a)
    ensures AfterSave(AfterSave(answers, a), a) == AfterSave(answers, a)
  {
    SaveKeys(answers, a);
  }

  /** The answer collection, kept free of duplicate keys. */
  class AnswerStore {
    var answers: seq<Answer>

    ghost predicate Valid()
      reads this
    {
      UniqueKeys(answers)
    }

    constructor (initial: seq<Answer>)
      requires UniqueKeys(initial)
      ensures Valid() && answers == initial
    {
      answers := initial;
    }

    /** `Answer.findOne` on the three key fields, used as an existence check. */
    function HasKey(k: AnswerKey): (b: bool)
      reads this
      ensures b <==> exists i :: 0 <= i < |answers| && KeyOf(answers[i]) == k
    {
      k in Keys(answers)
    }

    /** `answer.save()`: `ok` is false when validation fails or the unique index rejects the key. */
    method Save(a: Answer) returns (ok: bool)
      requires Valid()
      modifies this
      ensures Valid()
      ensures ok == CanSave(old(answers), a)
      ensures answers == AfterSave(old(answers), a)
    {
      SavePreservesUnique(answers, a);
      ok := CanSave(answers, a);
      if ok {
        answers := answers + [a];
      }
    }
  }
}
