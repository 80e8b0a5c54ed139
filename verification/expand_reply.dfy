/**
 * The per-slot half of the gap-filling engine (services/autoexpand.js):
 * the prompt sent for a slot (`buildPrompt`), the clean-up of the model's
 * reply before JSON parsing (`parseAIResponse`), and the answer record
 * built from the parsed reply with its fallbacks (`generateAnswer`).
 *
 * The completion service and `JSON.parse` are not modelled: they are
 * function parameters. `complete(prompt)` is `None` for every `null`
 * outcome of `callQwen` before parsing (no API key, a non-ok status, a
 * missing content field, a thrown error); `parse(text)` is `None` when
 * `JSON.parse` throws or yields a falsy value.
 */
module ExpandReply {
  import opened Wrappers
  import opened Text
  import opened CategoryModel
  import opened AnswerModel
  import opened ExpandSlots

  // ---------------------------------------------------------------------
  // buildPrompt
  // ---------------------------------------------------------------------

  const PromptOpening: string := "你是一个专业的商品评测编辑，为\"全球最佳商品百科全书\"撰写内容。\n\n请你在「"
  const PathSeparator: string := " > "
  const AfterPath: string := "」这个品类下，评选出在「"
  const AfterDimension: string := "」这个维度上综合表现最好的单品。\n\n价格要求："
  const BeforeBounds: string := "（"
  const BoundsSeparator: string := "-"
  const PromptClosing: string := "元）\n\n请严格按照以下JSON格式返回：\n{\n  \"product\": {\n    \"name\": \"产品完整名称\",\n    \"brand\": \"品牌名称\",\n    \"price\": 价格数字\n  },\n  \"recommendation\": {\n    \"summary\": \"一句话总结\",\n    \"detailed\": \"详细推荐理由\",\n    \"pros\": [\"优点1\", \"优点2\", \"优点3\"],\n    \"cons\": [\"缺点1\", \"缺点2\"]\n  }\n}"

  /** The category path as the prompt writes it: `level1 > level2 > level3`. */
  function CategoryPath(s: Slot): string {
    s.level1 + PathSeparator + s.level2 + PathSeparator + s.level3
  }

  /** The user message sent for a slot. */
  function BuildPrompt(s: Slot): string {
    PromptOpening + (CategoryPath(s) + (AfterPath + (s.dimension + (AfterDimension + (PriceLine(s) + PromptClosing)))))
  }

  /** The price requirement: band name, then `（min-max元）`. */
  function PriceLine(s: Slot): string {
    s.priceRange.name + (BeforeBounds + (IntToString(s.priceRange.min) + (BoundsSeparator + IntToString(s.priceRange.max))))
  }

  /**
   * The prompt names the slot's category path, its dimension, and its band's
   * name, lower bound and upper bound.
   */
  lemma PromptMentions(s: Slot)
    ensures Includes(BuildPrompt(s), CategoryPath(s))
    ensures Includes(BuildPrompt(s), s.dimension)
    ensures Includes(BuildPrompt(s), s.priceRange.name)
    ensures Includes(BuildPrompt(s), IntToString(s.priceRange.min))
    ensures Includes(BuildPrompt(s), IntToString(s.priceRange.max))
  {
    var p := BuildPrompt(s);
    var lo := IntToString(s.priceRange.min);
    var hi := IntToString(s.priceRange.max);
    var price := PriceLine(s) + PromptClosing;
    var fromDimension := s.dimension + (AfterDimension + price);
    var fromPath := CategoryPath(s) + (AfterPath + fromDimension);
    assert p == PromptOpening + fromPath;
    IncludesParts(p, PromptOpening, fromPath);
    IncludesParts(p, CategoryPath(s), AfterPath + fromDimension);
    IncludesParts(p, AfterPath, fromDimension);
    IncludesParts(p, s.dimension, AfterDimension + price);
    IncludesParts(p, AfterDimension, price);
    IncludesParts(p, PriceLine(s), PromptClosing);
    IncludesParts(p, s.priceRange.name, BeforeBounds + (lo + (BoundsSeparator + hi)));
    IncludesParts(p, BeforeBounds, lo + (BoundsSeparator + hi));
    IncludesParts(p, lo, BoundsSeparator + hi);
    IncludesParts(p, BoundsSeparator, hi);
  }

  // ---------------------------------------------------------------------
  // parseAIResponse: fence stripping and brace-span extraction
  // ---------------------------------------------------------------------

  const Fence: string := "```"

  predicate IsAsciiLetter(c: char) { 'a' <= c <= 'z' || 'A' <= c <= 'Z' }

  /** The length of the run of ASCII letters that starts `s` (`[a-zA-Z]*`, greedy). */
  function LeadingLetters(s: string): (k: nat)
    ensures k <= |s|
    ensures forall i :: 0 <= i < k ==> IsAsciiLetter(s[i])
    ensures k < |s| ==> !IsAsciiLetter(s[k])
    decreases |s|
  {
    if |s| > 0 && IsAsciiLetter(s[0]) then 1 + LeadingLetters(s[1..]) else 0
  }

  /**
   * `.replace(/```[a-zA-Z]*\n?/, '')` on a text that starts with a fence:
   * the fence, the language tag after it and one newline are removed.
   */
  function DropOpeningFence(s: string): string
    requires Fence <= s
  {
    var t := s[3..];
    var u := t[LeadingLetters(t)..];
    if |u| > 0 && u[0] == '\n' then u[1..] else u
  }

  /** `.replace(/```$/, '')`: a fence at the very end is removed. */
  function DropClosingFence(s: string): string {
    if |s| >= 3 && s[|s| - 3..] == Fence then s[..|s| - 3] else s
  }

  /** The fence step: only a text that starts with a fence is rewritten, and then trimmed again. */
  function StripFences(raw: string): string {
    if Fence <= raw then Trim(DropClosingFence(DropOpeningFence(raw))) else raw
  }

  /** The index of the first `{`, or `|s|` when there is none. */
  function FirstOpen(s: string): (k: nat)
    ensures k <= |s|
    ensures k < |s| ==> s[k] == '{'
    ensures forall i :: 0 <= i < k ==> s[i] != '{'
    decreases |s|
  {
    if s == [] then 0
    else if s[0] == '{' then 0
    else 1 + FirstOpen(s[1..])
  }

  /** The index of the last `}`, or -1 when there is none. */
  function LastClose(s: string): (k: int)
    ensures -1 <= k < |s|
    ensures k >= 0 ==> s[k] == '}'
    ensures forall i :: k < i < |s| ==> s[i] != '}'
    decreases |s|
  {
    if s == [] then -1
    else if s[|s| - 1] == '}' then |s| - 1
    else LastClose(s[..|s| - 1])
  }

  /** Some `{` comes before some `}`: the condition under which `/\{[\s\S]*\}/` matches. */
  predicate HasBracePair(s: string) {
    exists i, j :: 0 <= i < j < |s| && s[i] == '{' && s[j] == '}'
  }

  /**
   * `raw.match(/\{[\s\S]*\}/)`: the leftmost-longest match runs from the
   * first `{` to the last `}`; without a match the text is kept.
   */
  function JsonSpan(s: string): string {
    var i := FirstOpen(s);
    var j := LastClose(s);
    if i < j then s[i..j + 1] else s
  }

  /** The text handed to `JSON.parse`. */
  function PrepareJson(text: string): string {
    JsonSpan(StripFences(Trim(text)))
  }

  /** `parseAIResponse`: never fails itself; a parse failure is a `None`. */
  function ParseAIResponse<R>(text: string, parse: string -> Option<R>): Option<R> {
    parse(PrepareJson(text))
  }

  /**
   * When some `{` precedes some `}`, the span is exactly the text from the
   * first `{` to the last `}`; otherwise the text is left unchanged.
   */
  lemma JsonSpanSpec(s: string)
    ensures HasBracePair(s) ==>
      exists i, j :: 0 <= i < j < |s| && JsonSpan(s) == s[i..j + 1]
        && s[i] == '{' && s[j] == '}'
        && (forall k :: 0 <= k < i ==> s[k] != '{')
        && (forall k :: j < k < |s| ==> s[k] != '}')
    ensures !HasBracePair(s) ==> JsonSpan(s) == s
  {
    var i := FirstOpen(s);
    var j := LastClose(s);
    if i < j {
      assert s[i] == '{' && s[j] == '}';
    }
    if HasBracePair(s) {
      var a, b :| 0 <= a < b < |s| && s[a] == '{' && s[b] == '}';
      assert i <= a && b <= j;
    }
  }

  /** An extracted span is stable: extracting again changes nothing. */
  lemma JsonSpanIdempotent(s: string)
    ensures JsonSpan(JsonSpan(s)) == JsonSpan(s)
  {
    var i := FirstOpen(s);
    var j := LastClose(s);
    if i < j {
      var r := s[i..j + 1];
      assert r[0] == '{';
      assert FirstOpen(r) == 0;
      assert r[|r| - 1] == '}';
      assert LastClose(r) == |r| - 1;
    }
  }

  /** Chatter around one object is cut away: only `{ … }` reaches the parser. */
  lemma JsonSpanOfWrapped(pre: string, mid: string, post: string)
    requires forall k :: 0 <= k < |pre| ==> pre[k] != '{'
    requires forall k :: 0 <= k < |post| ==> post[k] != '}'
    ensures JsonSpan(pre + "{" + mid + "}" + post) == "{" + mid + "}"
  {
    var s := pre + "{" + mid + "}" + post;
    var i := FirstOpen(s);
    var j := LastClose(s);
    assert s[|pre|] == '{';
    assert i == |pre|;
    assert s[|pre| + |mid| + 1] == '}';
    assert j == |pre| + |mid| + 1;
    assert s[i..j + 1] == "{" + mid + "}";
  }

  /** The language tag ends at the newline. */
  lemma {:induction false} LeadingLettersOfTag(lang: string, rest: string)
    requires forall k :: 0 <= k < |lang| ==> IsAsciiLetter(lang[k])
    ensures LeadingLetters(lang + "\n" + rest) == |lang|
    decreases |lang|
  {
    if lang != [] {
      assert IsAsciiLetter(lang[0]);
      assert (lang + "\n" + rest)[1..] == lang[1..] + "\n" + rest;
      LeadingLettersOfTag(lang[1..], rest);
    }
  }

  /** The opening fence, its language tag and the newline go; the rest is kept as is. */
  lemma OpeningFenceRemoved(lang: string, rest: string)
    requires forall k :: 0 <= k < |lang| ==> IsAsciiLetter(lang[k])
    ensures Fence <= Fence + lang + "\n" + rest
    ensures DropOpeningFence(Fence + lang + "\n" + rest) == rest
  {
    var text := Fence + lang + "\n" + rest;
    assert text[..3] == Fence;
    var t := text[3..];
    assert t == lang + "\n" + rest;
    LeadingLettersOfTag(lang, rest);
    assert t[|lang|..] == "\n" + rest;
  }

  /**
   * A fenced reply (a fence, an ASCII language tag, a newline, a body that
   * has no space at either end, a closing fence) reaches the brace step as
   * its body alone.
   */
  lemma FencedReply(lang: string, body: string)
    requires forall k :: 0 <= k < |lang| ==> IsAsciiLetter(lang[k])
    requires |body| > 0 ==> !IsJsSpace(body[0]) && !IsJsSpace(body[|body| - 1])
    ensures PrepareJson(Fence + lang + "\n" + body + Fence) == JsonSpan(body)
  {
    var text := Fence + lang + "\n" + body + Fence;
    assert text[0] == '`' && text[|text| - 1] == '`';
    TrimUnchanged(text);
    assert text == Fence + lang + "\n" + (body + Fence);
    OpeningFenceRemoved(lang, body + Fence);
    assert (body + Fence)[|body|..] == Fence;
    assert (body + Fence)[..|body|] == body;
    assert DropClosingFence(body + Fence) == body;
    TrimUnchanged(body);
  }

  /** A reply without a leading fence goes straight from trimming to the brace step. */
  lemma UnfencedReply(text: string)
    requires !(Fence <= Trim(text))
    ensures PrepareJson(text) == JsonSpan(Trim(text))
  {
  }

  // ---------------------------------------------------------------------
  // generateAnswer: the answer record and its fallbacks
  // ---------------------------------------------------------------------

  /** The parts of a parsed reply the engine reads; an absent property is `None`. */
  datatype AIProduct = AIProduct(name: Option<string>, brand: Option<string>, price: Option<int>)
  datatype AIRecommendation = AIRecommendation(
    summary: Option<string>,
    detailed: Option<string>,
    pros: Option<seq<string>>,
    cons: Option<seq<string>>)
  datatype AIResult = AIResult(product: Option<AIProduct>, recommendation: Option<AIRecommendation>)

  const FallbackBrand: string := "知名品牌"
  const FallbackDetailed: string := "经过详细评测，这款产品表现优异。"
  const FallbackPros: seq<string> := ["性能优秀", "做工精良"]
  const FallbackCons: seq<string> := ["价格偏高"]
  const Provider: string := "qwen"
  const ModelName: string := "qwen-max"

  /** `x || fallback` for a string: the empty string is falsy. */
  function OrString(x: Option<string>, fallback: string): string {
    if x.Some? && x.value != "" then x.value else fallback
  }

  /** `x || fallback` for an array: any array, even an empty one, is truthy. */
  function OrList(x: Option<seq<string>>, fallback: seq<string>): seq<string> {
    if x.Some? then x.value else fallback
  }

  /** `x || fallback` for a number: zero is falsy. */
  function OrNumber(x: Option<int>, fallback: int): int {
    if x.Some? && x.value != 0 then x.value else fallback
  }

  /** `Math.floor((min + max) / 2)`: Dafny's `/` by a positive divisor rounds down already. */
  function Midpoint(min: int, max: int): (m: int)
    ensures 2 * m <= min + max < 2 * m + 2
    ensures min <= max ==> min <= m <= max
  {
    (min + max) / 2
  }

  function ProductName(r: AIResult): Option<string> {
    if r.product.Some? then r.product.value.name else None
  }

  function ProductBrand(r: AIResult): Option<string> {
    if r.product.Some? then r.product.value.brand else None
  }

  function ProductPrice(r: AIResult): Option<int> {
    if r.product.Some? then r.product.value.price else None
  }

  function Summary(r: AIResult): Option<string> {
    if r.recommendation.Some? then r.recommendation.value.summary else None
  }

  function Detailed(r: AIResult): Option<string> {
    if r.recommendation.Some? then r.recommendation.value.detailed else None
  }

  function Pros(r: AIResult): Option<seq<string>> {
    if r.recommendation.Some? then r.recommendation.value.pros else None
  }

  function Cons(r: AIResult): Option<seq<string>> {
    if r.recommendation.Some? then r.recommendation.value.cons else None
  }

  /**
   * The answer built for a slot from a parsed reply. It fills the slot's key
   * and copies the band; product and recommendation fields come from the
   * reply when truthy and from the fixed fallbacks otherwise, so the product
   * name and brand are never empty.
   */
  function GenerateAnswer(s: Slot, r: AIResult): (a: Answer)
    ensures KeyOf(a) == SlotKey(s)
    ensures a.level1 == s.level1 && a.level2 == s.level2 && a.level3 == s.level3
    ensures a.region == s.region
    ensures a.priceRange == BandSnapshot(s.priceRange.name, s.priceRange.min, s.priceRange.max)
    ensures a.product.name != "" && a.product.brand != ""
    ensures a.HasRequired() <==>
      s.level1 != "" && s.level2 != "" && s.level3 != "" && s.dimension != "" && s.region != Both
    ensures ProductName(r).Some? && ProductName(r).value != "" ==> a.product.name == ProductName(r).value
    ensures ProductName(r).None? || ProductName(r).value == "" ==> a.product.name == s.level3 + " 最佳选择"
    ensures ProductBrand(r).Some? && ProductBrand(r).value != "" ==> a.product.brand == ProductBrand(r).value
    ensures ProductBrand(r).None? || ProductBrand(r).value == "" ==> a.product.brand == "知名品牌"
    ensures ProductPrice(r).Some? && ProductPrice(r).value != 0 ==> a.product.price.value == ProductPrice(r).value
    ensures ProductPrice(r).None? || ProductPrice(r).value == 0 ==>
      2 * a.product.price.value <= s.priceRange.min + s.priceRange.max < 2 * a.product.price.value + 2
    ensures ProductPrice(r).None? || ProductPrice(r).value == 0 ==>
      s.priceRange.min <= s.priceRange.max ==> s.priceRange.min <= a.product.price.value <= s.priceRange.max
    ensures a.product.price.currency == "CNY"
    ensures Summary(r).Some? && Summary(r).value != "" ==> a.recommendation.summary == Summary(r).value
    ensures Summary(r).None? || Summary(r).value == "" ==> a.recommendation.summary == "这是" + s.level3 + "的最佳选择"
    ensures Detailed(r).Some? && Detailed(r).value != "" ==> a.recommendation.detailed == Detailed(r).value
    ensures Detailed(r).None? || Detailed(r).value == "" ==> a.recommendation.detailed == FallbackDetailed
    ensures Pros(r).Some? ==> a.recommendation.pros == Pros(r).value
    ensures Pros(r).None? ==> a.recommendation.pros == ["性能优秀", "做工精良"]
    ensures Cons(r).Some? ==> a.recommendation.cons == Cons(r).value
    ensures Cons(r).None? ==> a.recommendation.cons == ["价格偏高"]
    ensures a.aiGenerated == Provenance(true, "qwen", "qwen-max")
  {
    var band := s.priceRange;
    Answer(
      s.categoryId, s.level1, s.level2, s.level3, s.dimension,
      BandSnapshot(band.name, band.min, band.max),
      Product(
        OrString(ProductName(r), s.level3 + " 最佳选择"),
        OrString(ProductBrand(r), FallbackBrand),
        Price(OrNumber(ProductPrice(r), Midpoint(band.min, band.max)), DefaultCurrency)),
      Recommendation(
        OrString(Summary(r), "这是" + s.level3 + "的最佳选择"),
        OrString(Detailed(r), FallbackDetailed),
        OrList(Pros(r), FallbackPros),
        OrList(Cons(r), FallbackCons)),
      s.region,
      Provenance(DefaultIsGenerated, Provider, ModelName))
  }

  /**
   * One slot's generation: the completion for its prompt, cleaned and
   * parsed. An absent or empty completion and a failed parse give `None`,
   * which `generateAnswer` turns into a thrown error.
   */
  function Generate(s: Slot, complete: string -> Option<string>, parse: string -> Option<AIResult>): (r: Option<Answer>)
    ensures r.Some? <==>
      var c := complete(BuildPrompt(s));
      c.Some? && c.value != "" && ParseAIResponse(c.value, parse).Some?
    ensures r.Some? ==>
      r.value == GenerateAnswer(s, ParseAIResponse(complete(BuildPrompt(s)).value, parse).value)
  {
    var content := complete(BuildPrompt(s));
    if content.None? || content.value == "" then None
    else
      match ParseAIResponse(content.value, parse)
      case None => None
      case Some(result) => Some(GenerateAnswer(s, result))
  }
}
