# best-products-go taxonomy and answer engine, modelled in Dafny

This project is a Dafny model of the core of best-products-go. That
application is a catalogue of "best product" answers, kept in two MongoDB
collections:

- **Category** documents form a three-level taxonomy. Level 1 and level 2
  are names, slugs and icons. Level 3 is a leaf item with its quality
  dimensions and four price bands.
- **Answer** documents hold one recommendation per (category, dimension,
  price band).

The model covers these parts of the source:

- **The two schemas** (`lib/models`), with their defaults and unique
  indexes. The Category collection never holds two documents with the same
  level-3 name or slug. The Answer collection never holds two documents
  with the same (category id, dimension, price-band name) key.
- **The answer gap-filling engine** (`services/autoexpand.js`):
  - enumeration of the missing slots;
  - the prompt sent to the completion service;
  - clean-up of the reply before JSON parsing;
  - the answer record, with its fallbacks;
  - the bounded round that tries each batch slot once and isolates failures.
- **The taxonomy scripts** (`scripts/`):
  - the shared slug normaliser;
  - the collision-free slug registry of the full seed;
  - the dimension and price-band rule tables;
  - the batch insert with its per-document fallback;
  - the skip and validation rules of the JSON importer;
  - the skip-if-present loops of the incremental scripts (more categories,
    socks, fish oil);
  - the quota-bounded mass generator.
- **The calculations in `server.js`** that can be separated from the HTML:
  - the filter object;
  - page and skip arithmetic and the pagination window;
  - the two-level grouping of categories for rendering;
  - the grouping of answers by price band;
  - the like/dislike choice.

## How the model is built

- **Collections.** Each collection is a class whose field is a sequence of
  documents. A category's `_id` is its index in that sequence.
- **`create`, `save` and `insertMany`** are methods. Their contracts state
  the new contents through specification functions: `AfterCreate`,
  `CreateAll` and `AfterSave`. Each of these keeps the unique indexes.
- **Loops are methods with invariants.** This covers the nested `for` and
  `forEach` loops of the scripts, the slot enumeration, the pagination loop
  and the grouping loop. Each is proved equal to a left fold over its input
  (for example `MissingSlots`, `TryAddAll`, `MassRun` or `Group`). The
  properties the source promises are proved about that fold as lemmas.
- **Parameters stand in for what cannot be modelled:**
  - the completion service and `JSON.parse`;
  - the random draws of the mass generator;
  - the contents of files read from disk.

## Model

| member | source | states |
|---|---|---|
| Text.IntToString | services/autoexpand.js:120 | a number in the prompt is written in decimal: a non-negative number as its digits, with no leading zero; a negative one as `-` followed by the digits of its absolute value |
| Text.DigitsValueOfNatToString | services/autoexpand.js:120 | the decimal text of a number reads back as the same number |
| Text.NatToStringInjective | scripts/generate-mass-categories.js:123 | different numbers give different decimal texts, so the fallback level-2 names of different indexes differ |
| Text.Trim | services/autoexpand.js:142 | `trim` keeps a contiguous slice of the text and removes only whitespace before and after it; the result neither starts nor ends with whitespace; an all-whitespace text becomes empty |
| Text.TrimUnchanged | services/autoexpand.js:142 | trimming a text that has no whitespace at either end leaves it unchanged |
| Text.Dedup | scripts/generate-mass-categories.js:169 | de-duplication through a Set keeps exactly the members of the input, has no repeats, and is never longer than the input |
| Slugs.MaskChars | scripts/import-categories.js:11-12 | lower-casing and masking keep the length and leave only `[a-z0-9]`, CJK characters and `-` |
| Slugs.CollapseHyphens | scripts/import-categories.js:13 | collapsing leaves no `--`; the characters other than `-` stay the same and in the same order; the first character is kept; the text gets no longer |
| Slugs.NormalizeSlug | scripts/generate-full-categories.js:37-41 | a normalised slug uses only allowed characters, has no `--`, has no hyphen at either end, and is no longer than its input |
| Slugs.GenerateSlug | scripts/import-categories.js:8-15 | the result is a non-empty well-formed slug; it is `unknown` for an empty text or one that normalises to nothing, and the normalised text otherwise |
| Slugs.MaskCharsUnchanged | scripts/import-categories.js:11-12 | masking leaves a text made only of allowed characters and `-` unchanged |
| Slugs.CollapseHyphensUnchanged | scripts/import-categories.js:13 | collapsing leaves a text without `--` unchanged |
| Slugs.NormalizeSlugUnchanged | scripts/import-categories.js:11-14 | normalising a well-formed slug leaves it unchanged |
| Slugs.GenerateSlugIdempotent | scripts/import-categories.js:8-15 | applying `generateSlug` twice gives the same result as applying it once |
| Slugs.GenerateSlugOfSlug | scripts/add-socks.js:6-13 | `generateSlug` returns a non-empty well-formed slug unchanged |
| CategoryModel.NewLevel1 | lib/models/Category.js:4-9 | an omitted level-1 icon defaults to `fa-box` and an omitted region to `both`; supplied values are kept |
| CategoryModel.NewLevel2 | lib/models/Category.js:10-14 | an omitted level-2 icon defaults to `fa-folder` |
| CategoryModel.Band | lib/models/Category.js:24-29 | a price band's unit defaults to `CNY`; its name and bounds are kept |
| CategoryModel.ContiguousBandsPartition | scripts/generate-full-categories.js:1655-1730 | four contiguous bands from 0 to 999999 put every price of that range into exactly one band |
| CategoryModel.BandsIncrease | scripts/generate-full-categories.js:1655-1730 | in contiguous bands, every earlier band ends below the start of every later band |
| CategoryModel.CreateOutcomeOf | lib/models/Category.js:5-17 | `create` succeeds exactly when all required names and slugs are present and the level-3 name and slug are both unused; it fails validation exactly when a required field is empty |
| CategoryModel.CreatePreservesUnique | lib/models/Category.js:16-17 | `create` keeps the level-3 name and slug indexes unique |
| CategoryModel.CreateAllGrowth | scripts/generate-full-categories.js:1786 | an unordered `insertMany` keeps the indexes unique, only appends, and adds at most the batch size |
| CategoryModel.CreateAllAppend | scripts/generate-full-categories.js:1783-1786 | inserting batch `a` and then batch `b` gives the same collection as inserting `a + b` |
| CategoryModel.Level3NamesGrow | lib/models/Category.js:16-17 | a collection that only grew by appending still holds every earlier level-3 name and slug |
| CategoryModel.CreateAllRefusesRepeat | lib/models/Category.js:16-17 | after a batch is inserted, `create` refuses every document of that batch |
| CategoryModel.CreateAllRepeatIsNoop | scripts/generate-full-categories.js:1792-1797 | inserting again any documents of a batch already inserted changes nothing |
| CategoryModel.NoDuplicateRefusal | scripts/generate-full-categories.js:1786-1790 | whether the documents of a batch, created in turn, all escaped an E11000 refusal |
| CategoryModel.StoredWholeMeansNoRefusal | scripts/generate-full-categories.js:1786-1788 | a batch stored whole met no duplicate key, so its `insertMany` did not throw |
| CategoryModel.NoRefusalStoresValidWhole | scripts/generate-full-categories.js:1786-1788 | when every document of a batch passes validation, an `insertMany` that did not throw stored the whole batch |
| CategoryModel.Level3NamesPush | scripts/add-more-categories.js:159-160 | after appending a document, the name set is the old set plus that document's name |
| CategoryModel.Level3SlugsPush | lib/models/Category.js:17 | after appending a document, the slug set is the old set plus that document's slug |
| CategoryModel.CollectNames | scripts/add-more-categories.js:111-113 | the name set built from the collection is exactly the set of stored level-3 names |
| CategoryModel.FirstWithLevel1 | scripts/add-more-categories.js:121-125 | `findOne` by level-1 name returns a stored document with that name, or nothing exactly when no stored document has it |
| CategoryModel.FirstWithLevel1Append | scripts/add-socks.js:21 | appending documents never changes a lookup that already found a document |
| CategoryModel.CategoryStore.constructor | lib/models/Category.js:16-17 | a collection starts from contents that are unique on level-3 name and slug |
| CategoryModel.CategoryStore.DeleteAll | scripts/generate-full-categories.js:1772 | `deleteMany({})` empties the collection |
| CategoryModel.CategoryStore.Create | lib/models/Category.js:5-17 | `create` reports success, a duplicate key or a validation error as `CreateOutcomeOf` says, and appends the document exactly on success |
| CategoryModel.CategoryStore.InsertMany | scripts/generate-full-categories.js:1786 | an unordered `insertMany` stores what `CreateAll` stores; it completes without throwing exactly when no document was refused for a duplicate key (documents that fail validation alone are dropped without an error) |
| CategoryModel.CategoryStore.HasLevel3Name | scripts/add-socks.js:76 | the existence check is true exactly when a stored document has that level-3 name |
| AnswerModel.SaveKeys | lib/models/Answer.js:51 | `save` adds the answer's key to the key set when it is accepted, and no other key |
| AnswerModel.SavePreservesUnique | lib/models/Answer.js:51 | `save` keeps the (category id, dimension, price-band name) index unique |
| AnswerModel.SaveTwiceStoresOnce | lib/models/Answer.js:51 | a second `save` of the same answer is refused and changes nothing |
| AnswerModel.AnswerStore.constructor | lib/models/Answer.js:51 | an answer collection starts from unique keys |
| AnswerModel.AnswerStore.HasKey | services/autoexpand.js:34-38 | `findOne` on the three key fields finds an answer exactly when a stored answer has that key |
| AnswerModel.AnswerStore.Save | services/autoexpand.js:205 | `save` succeeds exactly when the required fields are present and the key is unused; it appends the answer exactly then, and the index stays unique |
| ExpandSlots.SlotRegion | services/autoexpand.js:48 | a slot's region is `global` when level 1's region is `both`, and level 1's region otherwise |
| ExpandSlots.RowSlotsMembership | services/autoexpand.js:33-50 | the band loop emits a slot exactly when it belongs to one of the bands and its key is not stored |
| ExpandSlots.CategorySlotsMembership | services/autoexpand.js:32-52 | the dimension loop emits a slot exactly when it belongs to a dimension and a band of the category and its key is not stored |
| ExpandSlots.MissingSlotsMembership | services/autoexpand.js:29-53 | a slot is emitted exactly when it is a (category, dimension, band) triple whose answer key is not stored |
| ExpandSlots.MissingSlots | services/autoexpand.js:29-53 | the slots of the stored categories, category by category; their membership is stated by `MissingSlotsMembership` |
| ExpandSlots.MissingSlotFields | services/autoexpand.js:41-49 | every emitted slot carries its category's three names, one of the category's bands, the mapped region (never `both`), and a key that is not stored |
| ExpandSlots.EmptyTablesGiveNoSlots | services/autoexpand.js:32-33 | a category with no dimensions or no price bands contributes no slot |
| ExpandSlots.MissingSlotsShrink | services/autoexpand.js:34-40 | storing more answers can only remove slots |
| ExpandSlots.RowSlotsAllMissing | services/autoexpand.js:33-50 | with no stored answers, the band loop emits one slot per band |
| ExpandSlots.CategorySlotsAllMissing | services/autoexpand.js:32-52 | with no stored answers, a category emits dimensions × bands slots |
| ExpandSlots.EmptyStoreSlotCount | services/autoexpand.js:29-53 | with no stored answers, the slot list is as long as the sum over categories of dimensions × bands |
| ExpandReply.PromptMentions | services/autoexpand.js:113-136 | the prompt contains the `level1 > level2 > level3` path, the dimension, and the band's name, minimum and maximum |
| ExpandReply.BuildPrompt | services/autoexpand.js:113-136 | the prompt text for a slot; what it contains is stated by `PromptMentions` |
| ExpandReply.LeadingLetters | services/autoexpand.js:145 | the `[a-zA-Z]*` after a fence matches the longest run of ASCII letters |
| ExpandReply.FirstOpen | services/autoexpand.js:148 | the result is the position of the first `{`, or the length when there is none |
| ExpandReply.LastClose | services/autoexpand.js:148 | the result is the position of the last `}`, or -1 when there is none |
| ExpandReply.JsonSpanSpec | services/autoexpand.js:148-151 | when some `{` comes before some `}`, the text is narrowed to the span from the first `{` to the last `}`; otherwise it is kept |
| ExpandReply.JsonSpanIdempotent | services/autoexpand.js:148-151 | narrowing an already narrowed text changes nothing |
| ExpandReply.JsonSpanOfWrapped | services/autoexpand.js:148-151 | prose with no `{` before an object and no `}` after it is cut away, leaving the object |
| ExpandReply.LeadingLettersOfTag | services/autoexpand.js:145 | a language tag followed by a newline is matched entirely |
| ExpandReply.OpeningFenceRemoved | services/autoexpand.js:144-145 | the opening fence, its language tag and one newline are removed |
| ExpandReply.FencedReply | services/autoexpand.js:141-151 | for a fenced reply, the text handed to the parser is the span of the body inside the fences |
| ExpandReply.UnfencedReply | services/autoexpand.js:141-151 | for a reply without a fence, the text handed to the parser is the span of the trimmed reply |
| ExpandReply.StripFences | services/autoexpand.js:142-146 | the fence step; what it returns is stated by `FencedReply`, `UnfencedReply` and `OpeningFenceRemoved` |
| ExpandReply.JsonSpan | services/autoexpand.js:148-151 | the object-span step; what it returns is stated by `JsonSpanSpec`, `JsonSpanIdempotent` and `JsonSpanOfWrapped` |
| ExpandReply.ParseAIResponse | services/autoexpand.js:141-158 | `JSON.parse` of the cleaned text, with a parse failure reported as nothing rather than thrown |
| ExpandReply.Midpoint | services/autoexpand.js:188 | the fallback price is the rounded-down half of min + max, and lies inside the band when min ≤ max |
| ExpandReply.GenerateAnswer | services/autoexpand.js:173-202 | the answer fills the slot's key, names and region, and copies the band unchanged; each product or recommendation field comes from the reply when it is truthy and from its fixed fallback otherwise (an empty `pros` array is kept); the fallback price is the band midpoint; the provenance is qwen/qwen-max |
| ExpandReply.Generate | services/autoexpand.js:164-170 | an answer is produced exactly when the completion is present and non-empty and its cleaned text parses; the answer produced is the one `GenerateAnswer` builds from that parse of the completion for the slot's own prompt |
| ExpandRound.TakeBatch | services/autoexpand.js:225 | the batch is a prefix of the slots of length min(len, max); a negative max counts back from the end, as `slice` does |
| ExpandRound.Drain | services/autoexpand.js:229-243 | the round over the batch: each slot is tried once, a slot without an answer changes nothing, and an answer is saved and counted only when the store accepts it |
| ExpandRound.GeneratorKeyFaithful | services/autoexpand.js:173-183 | a generated answer always carries the key of the slot it was generated for |
| ExpandRound.CollectMissingSlots | services/autoexpand.js:25-56 | the three nested loops return exactly `MissingSlots` of the stored categories and answer keys |
| ExpandRound.ExpandAnswers | services/autoexpand.js:213-246 | a round takes the first `maxPerRun` missing slots, tries each once, and leaves the store and the success counter as `Drain` says; the index stays unique |
| ExpandRound.DrainGrowth | services/autoexpand.js:228-243 | a round only appends answers, appends exactly `success` of them, and `success` is at most the batch size |
| ExpandRound.DrainKeepsUnique | lib/models/Answer.js:51 | a round keeps the answer index unique |
| ExpandRound.DrainKeysGrow | services/autoexpand.js:230-243 | no stored key is lost in a round |
| ExpandRound.DrainNewKeysFromBatch | services/autoexpand.js:230-243 | every key a round adds is the key of a batch slot |
| ExpandRound.DrainFillsGenerated | services/autoexpand.js:234-240 | a batch slot whose generated answer passes validation has its key stored at the end of the round, whatever fails around it |
| ExpandRound.SaveKeepsKeys | services/autoexpand.js:205 | a `save` never removes a key |
| ExpandRound.SaveStoresKey | services/autoexpand.js:205 | after a `save` of a valid answer, its key is stored, whether it was accepted or was already there |
| ExpandRound.RoundFillsAll | services/autoexpand.js:219-246 | when every missing slot fits in one batch and generates, no slot is missing after the round |
| FullCategories.GenerateDimensions | scripts/generate-full-categories.js:1606-1651 | exactly 7 dimensions with distinct names: three item-specific ones (importance 10, 9, 8), then the fixed common four |
| FullCategories.GeneratePriceRanges | scripts/generate-full-categories.js:1655-1730 | four contiguous bands from 0 to 999999, named 入门/中端/高端/旗舰, for every item |
| FullCategories.SpecificDimensions | scripts/generate-full-categories.js:1613-1648 | the three item-specific dimensions of the first matching keyword group; stated by `GenerateDimensions` and `ComputingWins` |
| FullCategories.ChoosePriceRanges | scripts/generate-full-categories.js:1655-1730 | the band table of the first matching keyword group; stated by `GeneratePriceRanges` and `ShoeBandsExactly` |
| FullCategories.ShoeBandsExactly | scripts/generate-full-categories.js:1665-1690 | the shoe bands are chosen exactly for a shoe that is not a running shoe and that neither the computing rule nor the earphone rule matched first |
| FullCategories.ComputingWins | scripts/generate-full-categories.js:1613-1616 | the phone/tablet/computer rule takes precedence in both tables |
| FullCategories.BaseSlug | scripts/generate-full-categories.js:37-49 | the base slug is well-formed; it is the normalised name when that has at least 3 characters, and otherwise the normalised `level1-level2-name` |
| FullCategories.ShortNameBaseSlug | scripts/generate-full-categories.js:44-49 | a two-character item gets the level-1 and level-2 names in front of it |
| FullCategories.ProbeInjective | scripts/generate-full-categories.js:51-58 | different attempts of the counter loop produce different slugs |
| FullCategories.ProbedMembership | scripts/generate-full-categories.js:51-58 | the slugs tried before attempt n are exactly attempts 0 to n-1 |
| FullCategories.ProbeIsNew | scripts/generate-full-categories.js:51-58 | attempt n is never one of the earlier attempts |
| FullCategories.ProbedAllTaken | scripts/generate-full-categories.js:55-58 | when the loop reaches attempt n, every earlier attempt was already taken |
| FullCategories.SlugRegistry.constructor | scripts/generate-full-categories.js:32 | the used-slug set starts empty |
| FullCategories.SlugRegistry.GenerateUniqueSlug | scripts/generate-full-categories.js:35-62 | the returned slug was not used before and is the only one added; it is the first free one of base, base-1, base-2, …; it is the base when the base is free |
| FullCategories.SlugRegistry.FirstFree | scripts/generate-full-categories.js:51-58 | the counter loop returns an unused attempt such that every earlier attempt is used |
| FullCategories.BuiltForPush | scripts/generate-full-categories.js:1738-1760 | pushing a document with a fresh probe slug keeps the built list matched to its entries, with distinct slugs |
| FullCategories.AddItems | scripts/generate-full-categories.js:1737-1760 | the item loop appends one document per item, with the generated tables and a fresh probe slug |
| FullCategories.AddLevel2s | scripts/generate-full-categories.js:1736-1761 | the level-2 loop appends the documents of every item of every level 2, in order |
| FullCategories.GenerateCategories | scripts/generate-full-categories.js:1734-1765 | one document per (level 1, level 2, item), in order; each has the generated tables and a slug derived from its own base; all slugs are pairwise distinct |
| FullSeed.CreatedCountIsGrowth | scripts/generate-full-categories.js:1792-1797 | the per-document fallback counts exactly the documents it appended |
| FullSeed.AsWrittenBatchCount | scripts/generate-full-categories.js:1784-1798 | as written, a batch counts its full length when `insertMany` did not throw, and otherwise the fallback `create` calls that succeed |
| FullSeed.AsWrittenThrowingBatchCountsZero | scripts/generate-full-categories.js:1783-1800 | as written, a batch whose `insertMany` throws (a duplicate key) always adds zero to the count, however many of its documents were stored |
| FullSeed.AsWrittenUndercounts | scripts/generate-full-categories.js:1783-1800 | a batch of two documents with the same name stores one document and, as written, counts none |
| FullSeed.BatchCount | scripts/generate-full-categories.js:1783-1800 | the corrected count of a batch is the number of documents it stored: at most the batch size, and equal to it exactly when the whole batch was stored |
| FullSeed.CreateEach | scripts/generate-full-categories.js:1792-1798 | the fallback loop runs `create` on every document and counts the successes |
| FullSeed.SeedFullCategories | scripts/generate-full-categories.js:1766-1800 | after clearing the collection, the batches of 100 store `CreateAll` of the whole list; as written, the count is the sum of the as-written batch counts; corrected, it equals the number of stored documents |
| FullSeed.BatchEnd | scripts/generate-full-categories.js:1783-1784 | a batch starting inside the list ends after it, at most 100 further on, and never past the end |
| FullSeed.AsWrittenCountFrom | scripts/generate-full-categories.js:1783-1800 | the as-written count summed over the batches from a given start |
| FullSeed.AsWrittenCountNoRefusal | scripts/generate-full-categories.js:1783-1788 | when no batch meets a duplicate key, the as-written count is the number of categories offered |
| ImportCategories.ImportDimensionsShape | scripts/import-categories.js:144-171 | 5 dimensions with distinct names, the three common ones first |
| ImportCategories.ImportDimensionPrecedence | scripts/import-categories.js:152-170 | fasteners (by item or level-2 name) come before tools, and those before bearings and valves; the default pair is used exactly when no rule matches |
| ImportCategories.ImportPriceRangesShape | scripts/import-categories.js:174-209 | four contiguous bands from 0 to 999999 in every branch; they have the power-tool names exactly for a power tool that is not a precision part |
| ImportCategories.ImportSpecific | scripts/import-categories.js:152-170 | the two trailing dimensions of the first matching keyword group; stated by `ImportDimensionPrecedence` |
| ImportCategories.GenerateDimensions | scripts/import-categories.js:144-171 | the three common dimensions, then the two specific ones; stated by `ImportDimensionsShape` |
| ImportCategories.GeneratePriceRanges | scripts/import-categories.js:174-209 | the band table of the first matching keyword group; stated by `ImportPriceRangesShape` |
| ImportCategories.CategoryOf | scripts/import-categories.js:79-96 | the document built for an item; its fields and validity are stated by `TriedEntryFields` |
| ImportCategories.Level1MapLookup | scripts/import-categories.js:28-31 | a name is a key of the level-1 map exactly when some record has it, and it maps to the last such record |
| ImportCategories.BuildLevel1Map | scripts/import-categories.js:28-31 | the `forEach` builds exactly `Level1Map` |
| ImportCategories.Level2Icon | scripts/import-categories.js:74 | a missing or empty level-2 icon becomes `fa-folder`; any other icon is kept |
| ImportCategories.ItemEntriesMembership | scripts/import-categories.js:76-77 | an item is tried exactly when it is non-empty |
| ImportCategories.Level2EntriesMembership | scripts/import-categories.js:62-77 | a level 2 contributes items exactly when it has a name and an items array |
| ImportCategories.EntriesMembership | scripts/import-categories.js:40-77 | an entry is tried exactly when it comes from a `.json` file that parsed, names a known level 1, and has a categories array |
| ImportCategories.TriedEntryFields | scripts/import-categories.js:73-98 | every tried document has a non-empty item and level-2 name, a level 1 from the map and a level-2 icon; it passes validation exactly when the level 1 has a name and a slug |
| ImportCategories.ImportSlugCollision | scripts/import-categories.js:94 | two items of one level 2 under level 1s with the same slug get the same level-3 slug exactly when their item slugs agree |
| ImportCategories.ImportItems | scripts/import-categories.js:76-112 | the item loop stores what `CreateAll` stores; `totalCategories` grows by the documents stored, and each other tried item is counted in `errorCount` |
| ImportCategories.ImportLevel2s | scripts/import-categories.js:62-113 | the level-2 loop skips invalid level 2s and stores what `CreateAll` stores for the rest |
| ImportCategories.ImportFile | scripts/import-categories.js:40-117 | a file is skipped unless usable; a file that fails to parse counts one error |
| ImportCategories.ImportAll | scripts/import-categories.js:17-124 | after clearing the collection, the import stores `CreateAll` of all tried entries; `totalCategories` is the number stored; `totalCategories + errorCount` is the number of tried items plus unparsable files |
| AddMoreCategories.AddDimensions | scripts/add-more-categories.js:208-227 | 7 dimensions for socks, 6 for fish oil, protein powder or vitamins, 3 otherwise; the three common ones always come first; names are distinct |
| AddMoreCategories.AddPriceRanges | scripts/add-more-categories.js:229-252 | four contiguous bands from 0 to 999999 in every branch; the first is 平价 exactly for socks; the last is always 奢侈 |
| AddMoreCategories.AsciiMask | scripts/add-more-categories.js:147 | as written, the mask keeps the length and turns every character outside `[a-z0-9]` into `-` |
| AddMoreCategories.AsWrittenSlugCollides | scripts/add-more-categories.js:152 | as written, two all-CJK items of the same length under one level 2 get the same level-3 slug |
| AddMoreCategories.AsWrittenSockSlugsCollide | scripts/add-more-categories.js:152 | as written, 男士商务袜 and 男士运动袜 get the same slug |
| AddMoreCategories.ItemSlugsDistinct | scripts/add-more-categories.js:152 | with the corrected slug, different non-empty all-CJK items of one level 2 get different slugs |
| AddMoreCategories.NewCategory | scripts/add-more-categories.js:143-155 | the document written for an item under the sampled level 1, with the slugs of the chosen rule; stated by `NewCategoryShape` |
| AddMoreCategories.NewCategoryShape | scripts/add-more-categories.js:143-155 | the document keeps the sampled level 1, the table's level-2 name and icon and the item name, and carries the item's dimensions and bands; as written its level-2 slug is the ASCII mask of the name and its level-3 slug is `<l1>-<mask>-<mask>`; corrected, both keep CJK characters; as written it passes validation exactly when the level 1, the level-2 name and the item are non-empty |
| AddMoreCategories.TryAdd | scripts/add-more-categories.js:138-173 | one attempt: a stored name is skipped; otherwise `create` adds, a duplicate key is skipped, and a validation error is neither; stated by `TryAddGrows`, `TryAddSettles` and `TryAddSettledNoop` |
| AddMoreCategories.AddItems | scripts/add-more-categories.js:137-174 | the item loop as a fold; stated by `AddItemsGrows`, `AddItemsRefusesRepeat` and `AsWrittenSecondItemSkipped` |
| AddMoreCategories.AddGroups | scripts/add-more-categories.js:117-178 | the whole run as a fold; stated by `AddGroupsGrows` |
| AddMoreCategories.AddItemsPair | scripts/add-more-categories.js:137-174 | two items of one level 2 are two attempts in turn |
| AddMoreCategories.TryAddTwoCreated | scripts/add-more-categories.js:158-165 | a created document is appended, and a second valid one that clashes with neither index nor the first is created after it |
| AddMoreCategories.AsWrittenSecondItemSkipped | scripts/add-more-categories.js:137-174 | as written, of two new same-length all-CJK items of one level 2, the first is created and the second is refused on the slug index and counted as skipped |
| AddMoreCategories.CorrectedSecondItemAdded | scripts/add-more-categories.js:137-174 | with the corrected slugs, two new all-CJK items of one level 2 are both created |
| AddMoreCategories.TryAddGrows | scripts/add-more-categories.js:138-173 | one attempt keeps the indexes unique, appends nothing or exactly the document, counts an appended document as added, and counts at most one of added or skipped |
| AddMoreCategories.AddItemGrows | scripts/add-more-categories.js:137-173 | an item attempt keeps the indexes unique and the collection growing |
| AddMoreCategories.AddItemsGrows | scripts/add-more-categories.js:137-174 | the item loop keeps the indexes unique; `added` counts exactly the appended documents; `skipped` never decreases |
| AddMoreCategories.AddLevel2sGrows | scripts/add-more-categories.js:134-177 | the same holds for the level-2 loop |
| AddMoreCategories.AddGroupsGrows | scripts/add-more-categories.js:117-178 | the same holds for the whole run |
| AddMoreCategories.ExistingNameSkipped | scripts/add-more-categories.js:138-141 | an item whose name is already stored counts as skipped and writes nothing |
| AddMoreCategories.RefusalPersists | lib/models/Category.js:16-17 | a document refused by `create` stays refused as the collection grows |
| AddMoreCategories.AddItemsRefusesRepeat | scripts/add-more-categories.js:159-160 | after the item loop, `create` refuses every item of the list |
| AddMoreCategories.AddItemAppends | scripts/add-more-categories.js:158-173 | an item attempt only appends |
| AddMoreCategories.AddItemRefusesAgain | scripts/add-more-categories.js:158-173 | after an attempt at an item, `create` refuses that item |
| AddMoreCategories.RepeatedItemWritesNothing | scripts/add-more-categories.js:159-160 | a name repeated later in the same list is never created twice |
| AddMoreCategories.TryAddAllAppend | scripts/add-socks.js:71-125 | attempting `a` and then `b` is the same as attempting `a + b` |
| AddMoreCategories.TryAddAllGrows | scripts/add-socks.js:71-125 | a run of attempts keeps the indexes unique and the counters growing, and appends only documents of the list |
| AddMoreCategories.SettledPersists | scripts/add-socks.js:76-80 | a document that can no longer be added stays so as the collection grows |
| AddMoreCategories.TryAddSettles | scripts/add-socks.js:76-123 | after one attempt, the document can no longer be added |
| AddMoreCategories.TryAddAllSettles | scripts/add-socks.js:71-125 | after a run, no document of the list can be added any more |
| AddMoreCategories.TryAddAllSettledNoop | scripts/add-socks.js:76-80 | a run over documents that can no longer be added writes nothing and adds nothing |
| AddMoreCategories.TryAddAllTwice | scripts/add-socks.js:71-125 | running the same list again on the result writes nothing and adds nothing |
| AddMoreCategories.TryAddOne | scripts/add-more-categories.js:138-173 | one attempt of the loop body leaves the collection and counters as `TryAdd` says and keeps the name set equal to the stored names |
| AddMoreCategories.AddItemsLoop | scripts/add-more-categories.js:137-174 | under either slug rule (as written or corrected), the item loop leaves the collection and counters as `AddItems` says for that rule |
| AddMoreCategories.AddLevel2sLoop | scripts/add-more-categories.js:134-177 | under either slug rule, the level-2 loop leaves them as `AddLevel2s` says |
| AddMoreCategories.AddGroupStep | scripts/add-more-categories.js:117-177 | under either slug rule, one level 1 is skipped when it has no stored sample, and otherwise its level 2s are processed as `AddGroup` says |
| AddMoreCategories.AddMore | scripts/add-more-categories.js:102-178 | under either slug rule, the whole run leaves the collection and counters as `AddGroups` says from zero counters; with `AsWritten` this is the script as written |
| AddSocks.SocksLevel1 | scripts/add-socks.js:20-38 | the level 1 used is named 服饰内衣; it is the fixed record when no sample exists |
| AddSocks.SockTables | scripts/add-socks.js:40-108 | 6 distinct sock dimensions; the bands 0-19, 20-49, 50-99 and 100-999999 are contiguous; 5 groups of 15 items |
| AddSocks.SockCategory | scripts/add-socks.js:82-110 | a sock document carries the item and the level 1, and its slug is `level1.slug-level2Slug-itemSlug` |
| AddSocks.SockSlugsDistinct | scripts/add-socks.js:82-83 | different non-empty all-CJK sock items of one level 2 get different slugs |
| AddSocks.GroupCategories | scripts/add-socks.js:74-110 | one document per item of a group, in order |
| AddSocks.SockCategoriesLevel1 | scripts/add-socks.js:85-87 | every sock document carries the chosen level 1 |
| AddSocks.AddSocksGrows | scripts/add-socks.js:68-125 | the run keeps the indexes unique, only appends, and counts every appended document as added |
| AddSocks.LookupAfterAttempts | scripts/add-socks.js:21 | attempts at documents of one level 1 leave the level-1 lookup as it was, or make it find that level 1 |
| AddSocks.SocksLevel1Stable | scripts/add-socks.js:20-38 | a run does not change which level 1 the next run picks |
| AddSocks.AddSocksTwice | scripts/add-socks.js:71-125 | a second run of the script writes nothing and adds nothing |
| AddSocks.AddSockItem | scripts/add-socks.js:76-123 | one item attempt leaves the collection and counters as `TryAdd` says |
| AddSocks.TryAddAllStep | scripts/add-socks.js:74 | one more item extends the run by one attempt |
| AddSocks.AddSockGroup | scripts/add-socks.js:71-125 | the item loop of one group extends the run by that group's documents |
| AddSocks.AddSockGroupItem | scripts/add-socks.js:74-123 | one pass of the item loop extends the run by that item's document |
| AddSocks.SockCategoriesStep | scripts/add-socks.js:71 | one more group extends the tried documents by that group's documents |
| AddSocks.AddSockGroups | scripts/add-socks.js:71-125 | the group loop leaves the collection and counters as the attempts at every group's documents, in order, say |
| AddSocks.AddSocksScript | scripts/add-socks.js:15-125 | the script leaves the collection and counters as `AddSocksRun` says |
| AddFishOil.FoodLevel1 | scripts/add-fishoil.js:20-38 | the level 1 used is named 食品饮料; it is the fixed record when no sample exists |
| AddFishOil.FishOilCategory | scripts/add-fishoil.js:42-70 | the 鱼油 document has slug `level1.slug-保健品-鱼油`, the five fish-oil dimensions and the health bands |
| AddFishOil.FishOilTables | scripts/add-fishoil.js:56-68 | 5 distinct dimensions; the bands 0-99, 100-199, 200-399 and 400-999999 are contiguous |
| AddFishOil.AddFishOilEffect | scripts/add-fishoil.js:40-76 | the script writes at most the one document and keeps the indexes unique; after it, 鱼油 is stored or refused; it writes nothing when 鱼油 is already stored |
| AddFishOil.AddFishOilIdempotent | scripts/add-fishoil.js:40-41 | a second run changes nothing |
| AddFishOil.FishOilSlots | scripts/add-fishoil.js:56-68 | the fish-oil category contributes 5 × 4 = 20 answer slots |
| AddFishOil.AddFishOilScript | scripts/add-fishoil.js:15-76 | the script leaves the collection as `AddFishOilRun` says and reports a creation exactly when the collection grew by one |
| MassCategories.TypesFor | scripts/generate-mass-categories.js:117-123 | the type list of a level 1 is never empty |
| MassCategories.FallbackTypes | scripts/generate-mass-categories.js:123 | the fallback type list of an unknown level 1 has three entries; their form is stated by `FallbackNameIsGenerated` |
| MassCategories.FallbackNameIsGenerated | scripts/generate-mass-categories.js:123-124 | for an unknown level 1, the name of index i is the prefix, the number i+1, 型, and the lap suffix |
| MassCategories.FallbackNameInjective | scripts/generate-mass-categories.js:123-124 | different indexes give different fallback names |
| MassCategories.FallbackNamesDistinct | scripts/generate-mass-categories.js:116-125 | under an unknown level 1, different indexes give different level-2 names |
| MassCategories.IconForLevel2 | scripts/generate-mass-categories.js:127-134 | the icon is `fa-folder` exactly when the level 1 is not one of the three mapped names |
| MassCategories.Level2ListShape | scripts/generate-mass-categories.js:100-114 | `count` entries; entry i has the generated name for index i, its slug and a non-empty icon |
| MassCategories.FallbackLevel2sDistinct | scripts/generate-mass-categories.js:100-125 | under an unknown level 1, the generated level 2s all have different names |
| MassCategories.GenerateLevel2ForLevel1 | scripts/generate-mass-categories.js:100-114 | the loop builds exactly `Level2List` |
| MassCategories.Level2ListStep | scripts/generate-mass-categories.js:104-111 | one more index appends one entry |
| MassCategories.MassDimensions | scripts/generate-mass-categories.js:180-196 | 5 dimensions for screws, bolts or tools and 3 otherwise; the three common ones first; names are distinct |
| MassCategories.MassPriceRanges | scripts/generate-mass-categories.js:198-205 | four contiguous bands from 0 to 999999, from 经济型 to 工业级 |
| MassCategories.ItemsPerLevel2 | scripts/generate-mass-categories.js:244-247 | the per-level-2 share is between 1 and 200 and at most what remains; below 200 it is the ceiling of what remains divided by the level 2s left |
| MassCategories.CeilingShare | scripts/generate-mass-categories.js:246 | the ceiling division is at least 1 and at most what remains, and is the least q with remaining ≤ q × levelsLeft |
| MassCategories.CeilingBounds | scripts/generate-mass-categories.js:246 | from the division equation alone, the quotient is between 1 and what remains, and remaining lies in ((q - 1) × levelsLeft, q × levelsLeft] |
| MassCategories.MassItemKeeps | scripts/generate-mass-categories.js:251-277 | one item step keeps the indexes unique, only appends, counts each append in `generated`, and never passes the quota |
| MassCategories.MassItemsKeeps | scripts/generate-mass-categories.js:251-282 | the same holds for the item loop |
| MassCategories.MassLevel2sKeeps | scripts/generate-mass-categories.js:242-283 | the same holds for the level-2 loop |
| MassCategories.MassLevel1sKeeps | scripts/generate-mass-categories.js:238-284 | the same holds for the level-1 loop |
| MassCategories.MassRunQuota | scripts/generate-mass-categories.js:219-284 | the run only appends and keeps the indexes unique; `generated` is the number appended; nothing is generated when the target is already reached; otherwise `generated` never exceeds target minus existing |
| MassCategories.MassItem | scripts/generate-mass-categories.js:251-277 | one item: nothing after a failure, a used name or a met quota; otherwise `create`, which appends and counts, or throws and ends the run |
| MassCategories.DrawnItems | scripts/generate-mass-categories.js:244-249 | the items drawn for the level 2 at its position, with its share of what remains, without repeats |
| MassCategories.MassRun | scripts/generate-mass-categories.js:209-284 | the whole run; its bounds are stated by `MassRunQuota` and `MassRunBounds` |
| MassCategories.MassItemsIdle | scripts/generate-mass-categories.js:253 | once the quota is met or a create has failed, the item loop changes nothing |
| MassCategories.MassItemsIdleFrom | scripts/generate-mass-categories.js:251-253 | stopping the item loop early at the quota gives the same state as running it to the end |
| MassCategories.MassLevel2sIdleFrom | scripts/generate-mass-categories.js:242 | stopping the level-2 loop at the quota guard gives the same state as the full loop |
| MassCategories.MassLevel1sIdleFrom | scripts/generate-mass-categories.js:238 | stopping the level-1 loop at the quota guard gives the same state as the full loop |
| MassCategories.MassItemsStep | scripts/generate-mass-categories.js:251 | one more item extends the item fold by one step |
| MassCategories.MassLevel1sStep | scripts/generate-mass-categories.js:238 | one more level 1 extends the level-1 fold by one step |
| MassCategories.MassItemsLoop | scripts/generate-mass-categories.js:251-282 | the item loop, with its `continue` and `break`, leaves the collection and counter as `MassItems` says |
| MassCategories.MassLevel2sLoop | scripts/generate-mass-categories.js:242-283 | the guarded level-2 loop leaves them as `MassLevel2s` says |
| MassCategories.MassLevel2Step | scripts/generate-mass-categories.js:243-249 | one level 2 draws its share of items, de-duplicated, and runs the item loop; the level-2 loop's state advances by that level 2 |
| MassCategories.MassLevel1Step | scripts/generate-mass-categories.js:239-240 | one level 1 draws its level-2 list and runs the level-2 loop |
| MassCategories.MassLevel1sLoop | scripts/generate-mass-categories.js:238-284 | the guarded level-1 loop leaves them as `MassLevel1s` says |
| MassCategories.MassRunIdle | scripts/generate-mass-categories.js:219-223 | when the collection already holds the target count, the run writes nothing and generates nothing |
| MassCategories.MassRunStarts | scripts/generate-mass-categories.js:219-238 | with a positive shortfall the run is the level-1 loop started from a zero count |
| MassCategories.MassRunBounds | scripts/generate-mass-categories.js:219-284 | the early-return state (no shortfall) or the level-1 loop's result (a positive shortfall) is the run's result; it only extends the stored categories, by exactly `generated` documents, and `generated` stays within the shortfall |
| MassCategories.TopUp | scripts/generate-mass-categories.js:227-284 | after collecting the used names, the level-1 loop leaves the collection and counter as `MassLevel1s` says |
| MassCategories.MassLevel2sExit | scripts/generate-mass-categories.js:242 | wherever the guarded level-2 loop stops, its state is the state after all level 2s |
| MassCategories.GenerateMassCategories | scripts/generate-mass-categories.js:209-284 | the script leaves the collection and counter as `MassRun` says, only appends, and never generates more than target minus existing (nothing when that is ≤ 0) |
| Pagination.TotalPages | server.js:326 | `ceil(total / limit)`: 0 for no categories, otherwise the fewest pages holding all of them |
| Pagination.PagesCoverOnce | server.js:324-326 | with `skip = (page - 1) * limit`, every category index is on exactly one page between 1 and `totalPages` |
| Pagination.PrevPage | server.js:627 | the previous link targets page - 1, and never goes below 1 |
| Pagination.NextPage | server.js:639 | the next link targets page + 1, and never goes above `totalPages` |
| Pagination.LinksStayInRange | server.js:627-639 | from a page in range, both links stay in range |
| Pagination.WindowByPosition | server.js:518-524 | entry k of the window is the number or the `...` of the k-th shown position, and the positions increase strictly |
| Pagination.Window | server.js:518-524 | the entries pushed for positions 1 to a bound; stated by `WindowByPosition` and `ShownMembership` |
| Pagination.ShownMembership | server.js:519-522 | a position is shown exactly when it is listed or marked for `...` |
| Pagination.WindowHasListed | server.js:519-520 | every listed page between 1 and `totalPages` has its number in the window |
| Pagination.WindowNumberAt | server.js:519-520 | every number in the window is a listed page in range |
| Pagination.PaginationWindow | server.js:516-525 | the window contains page 1, `totalPages` and every page within 2 of the current one; it contains no other numbers; its numbers strictly increase |
| Pagination.PaginationOf | server.js:516-525 | the window for the list view with more than one page and no search, nothing otherwise; stated by `PaginationWindow` and `BuildPagination` |
| Pagination.PaginationGaps | server.js:521-522 | a `...` stands only for a page at distance 3 from the current one, strictly between 1 and `totalPages`, and not listed |
| Pagination.BuildPagination | server.js:516-525 | the loop builds exactly `PaginationOf`, which is empty unless the view is `list`, there is more than one page and there is no search |
| Listing.OrAll | server.js:265-268 | an absent or empty parameter becomes `all`; any other value is kept |
| Listing.QueryMeaning | server.js:290-299 | a region other than `all` keeps that region and `both`; a level-1 or level-2 name other than `all` keeps only that name; `all` keeps everything |
| Listing.BuildQuery | server.js:290-299 | the query object, one condition per parameter other than `all`; its meaning is stated by `QueryMeaning` |
| Listing.FindLevel1 | server.js:353 | the lookup of a level-1 bucket finds a bucket with that name, or nothing exactly when none has it |
| Listing.FindLevel2 | server.js:361 | the lookup of a level-2 bucket finds a bucket with that name, or nothing exactly when none has it |
| Listing.AddToLevel2sDistinct | server.js:361-368 | adding a category keeps the level-2 names of its level-1 bucket distinct, and leaves at least one |
| Listing.AddToLevel2sSelects | server.js:361-368 | after adding a category, each level-2 bucket holds exactly its pair's categories in input order, and none is empty |
| Listing.AddToLevel2sFinds | server.js:361-368 | after adding a category its level-2 bucket exists, and every bucket that existed is still found |
| Listing.AddNewLevel1 | server.js:353-368 | a category with a new level-1 name opens a bucket, and the grouping stays exact |
| Listing.AddKnownLevel1 | server.js:360-368 | a category of a known level 1 goes into that bucket, and the grouping stays exact |
| Listing.AddToGroupsGroups | server.js:351-369 | one step of the `forEach` keeps the grouping exact |
| Listing.GroupGroups | server.js:351-369 | after the loop, keys are distinct at both levels, every bucket holds exactly its pair's categories in input order, and every category has a bucket |
| Listing.Group | server.js:351-369 | the `forEach` grouping of categories; what it builds is stated by `GroupGroups`, `GroupExactlyOnce` and `GroupOrder` |
| Listing.GroupExactlyOnce | server.js:351-369 | each category is in exactly one level-1/level-2 bucket |
| Listing.SelectMembership | server.js:368 | a bucket holds exactly the categories with its level-1 and level-2 names |
| Listing.AddToGroupsNames | server.js:353-358 | a new level-1 name is appended to the bucket order; a known one changes nothing |
| Listing.GroupOrder | server.js:351-369 | the level-1 buckets come in order of first appearance |
| Listing.GroupOne | server.js:352-368 | the loop body, which opens empty buckets and then pushes, equals `AddToGroups` |
| Listing.PushLevel2 | server.js:360-368 | the level-2 part of the loop body equals `AddToLevel2s` |
| Listing.GroupForRender | server.js:443-456 | the grouping loop builds exactly `Group` |
| Listing.WithRange | server.js:702 | the filter keeps exactly the answers with that band name |
| Listing.ByPriceRangeContents | server.js:700-703 | the keys are exactly the declared band names, and each key maps to the answers with that band name |
| Listing.ByPriceRange | server.js:700-703 | the answers grouped by declared band name; stated by `ByPriceRangeContents` |
| Listing.GroupByPriceRange | server.js:700-703 | the loop builds exactly `ByPriceRange` |
| Listing.Vote | server.js:211-213 | a vote adds one in total; it adds to likes exactly when the type is `like`, and to dislikes otherwise |

## Left out

- The MongoDB connection, `lib/db.js`, and the statistics queries (`countDocuments`, `distinct`). Their results only feed log lines and the page header.
- `console` logging and the `level2Added` counter of add-more-categories.js. The counter is only logged.
- The completion service call (`callQwen`) and `JSON.parse`. They are function parameters. Every `null` outcome of the call is one `None`.
- ExpandReply.GenerateAnswer: the reply's price is an integer or absent. A fractional price such as 19.9, or a price given as a string, which `JSON.parse` passes through unchanged, is not modelled.
- Timers: `sleep`, the `setTimeout` rescheduling, and the interval constants. One round of `expandAnswers` is modelled.
- The random draws of generate-mass-categories.js. `generateItemsForLevel2` and the random level-2 count are parameters of `MassRun`, indexed by the position of the call that draws them, so every call may draw differently.
- MassCategories.GenerateLevel2ForLevel1: the `count` argument stands for the random draw of 10-29. The contract holds for any count.
- The literal level-1 and level-2 tables of generate-full-categories.js and generate-mass-categories.js, and the `newCategories` table of add-more-categories.js. These are inputs; the model proves its properties for every table. The sock items and the 30-entry type lists of the mass generator are written out.
- File and directory reads of import-categories.js. The directory listing and each file's parsed content are inputs.
- The level-1 records of generate-full-categories.js can hold the `region` value `global`, but each script copies its records as given. Level-1 data is taken as it is.
- JavaScript property lookup on a plain object. A level-1 name such as `constructor` would find an inherited property in `level2Types` or `level1Map`; the model treats every name as absent unless listed.
- The order in which `for … in` visits the keys of `grouped`. JavaScript puts integer-like keys first; the model keeps first-appearance order for every key.
- `parseInt` of the page and of `MAX_PER_RUN`, including `NaN`. These are integers in the model.
- The database query of the category page: the search regexes, sorting, and `skip`/`limit`. The filter object and the page arithmetic are modelled; the query itself is not.
- Listing.Vote: only the choice between likes and dislikes is modelled. The `findByIdAndUpdate` call is not. The Answer schema declares no `feedback` field, so what the update stores depends on Mongoose's strict mode.
- The HTML rendering in server.js and the React page.
- The `expanded` flags of the grid buckets. They only affect rendering.
- Slugs.GenerateSlug: lower-casing is ASCII-only, and the CJK class is U+4E00..U+9FA5. Unicode case folding of other letters is not modelled.
- scripts/seed-categories.js, scripts/backup.js, scripts/restore.js, pages/api/categories.js and test-qwen.js are not part of this model.

## Findings

| source | as written | input that shows it | evidently intended | confidence | as-written member | corrected member |
|---|---|---|---|---|---|---|
| scripts/add-more-categories.js:147-152 | the level-2 and level-3 slugs use `replace(/[^a-z0-9]/g, '-')` without the CJK range, so every Chinese character becomes `-` | 男士商务袜 and 男士运动袜 under one level 2 both get slug `<l1>-----------` and the second `create` fails with E11000, so it is counted as skipped | the `generateSlug` of the other scripts, which keeps CJK characters | not executed | AddMoreCategories.AsWrittenSecondItemSkipped | AddMoreCategories.CorrectedSecondItemAdded |
| scripts/generate-full-categories.js:1783-1800 | when `insertMany` of a batch throws, the fallback `create` of each document of that batch is refused (its name or slug is already stored by the unordered insert, or it collides inside the batch), so `successCount` gains nothing for documents the failed `insertMany` did store | a batch holding two valid documents with the same level-3 name stores one document and counts zero | the count grows by the number of documents the batch stored | not executed | FullSeed.AsWrittenUndercounts | FullSeed.BatchCount |
