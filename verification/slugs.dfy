/**
 * Slug normalisation shared by the taxonomy scripts. The text is
 * lower-cased; every character other than an ASCII letter, a digit or a
 * CJK ideograph becomes a hyphen; runs of hyphens become one hyphen; one
 * hyphen is removed at each end; an empty result becomes `unknown`.
 *
 * Case folding is ASCII only; the kept CJK block is U+4E00..U+9FA5.
 */
module Slugs {

  /** The CJK range the slug regular expression keeps (`一-龥`). */
  predicate IsCjk(c: char) { 0x4E00 <= c as int <= 0x9FA5 }

  /** A character that survives the masking step unchanged. */
  predicate IsSlugChar(c: char) { 'a' <= c <= 'z' || '0' <= c <= '9' || IsCjk(c) }

  /** ASCII `toLowerCase` of one character. */
  function ToLower(c: char): char {
    if 'A' <= c <= 'Z' then (c as int + 32) as char else c
  }

  /** Lower-cases, then replaces every character outside `[a-z0-9]` and the CJK range by `-`. */
  function MaskChars(s: string): (r: string)
    ensures |r| == |s|
    ensures forall i :: 0 <= i < |r| ==> IsSlugChar(r[i]) || r[i] == '-'
  {
    seq(|s|, i requires 0 <= i < |s| => if IsSlugChar(ToLower(s[i])) then ToLower(s[i]) else '-')
  }

  predicate NoDoubleHyphen(s: string) {
    forall i :: 0 <= i < |s| - 1 ==> !(s[i] == '-' && s[i + 1] == '-')
  }

  /** The characters of `s` other than `-`, in order. */
  function WithoutHyphens(s: string): string
    decreases |s|
  {
    if s == [] then [] else (if s[0] == '-' then [] else [s[0]]) + WithoutHyphens(s[1..])
  }

  /**
   * `.replace(/-+/g, '-')`: every run of hyphens becomes a single one. Only
   * hyphens are removed, the first character is kept, and no two hyphens
   * remain adjacent.
   */
  function CollapseHyphens(s: string): (r: string)
    ensures NoDoubleHyphen(r)
    ensures WithoutHyphens(r) == WithoutHyphens(s)
    ensures forall i :: 0 <= i < |r| ==> r[i] in s
    ensures |s| > 0 ==> |r| > 0 && r[0] == s[0]
    ensures |r| <= |s|
    decreases |s|
  {
    if s == [] then []
    else if |s| >= 2 && s[0] == '-' && s[1] == '-' then CollapseHyphens(s[1..])
    else
      var r := [s[0]] + CollapseHyphens(s[1..]);
      assert r[1..] == CollapseHyphens(s[1..]);
      r
  }

  /** `.replace(/^-|-$/g, '')`: drops one leading and one trailing hyphen. */
  function TrimHyphens(s: string): string {
    var t := if |s| > 0 && s[0] == '-' then s[1..] else s;
    if |t| > 0 && t[|t| - 1] == '-' then t[..|t| - 1] else t
  }

  /** The shape every normalised slug has. */
  predicate WellFormedSlug(s: string) {
    && (forall i :: 0 <= i < |s| ==> IsSlugChar(s[i]) || s[i] == '-')
    && NoDoubleHyphen(s)
    && (|s| > 0 ==> s[0] != '-' && s[|s| - 1] != '-')
  }

  /** Two non-empty well-formed slugs joined by one hyphen form a well-formed slug. */
  lemma JoinWellFormed(a: string, b: string)
    requires WellFormedSlug(a) && WellFormedSlug(b) && |a| > 0 && |b| > 0
    ensures WellFormedSlug(a + "-" + b)
  {
    var s := a + "-" + b;
    forall i | 0 <= i < |s| - 1
      ensures !(s[i] == '-' && s[i + 1] == '-')
    {
      if i < |a| - 1 {
        assert s[i] == a[i] && s[i + 1] == a[i + 1];
      } else if i == |a| - 1 {
        assert s[i] == a[|a| - 1];
      } else if i == |a| {
        assert s[i + 1] == b[0];
      } else {
        assert s[i] == b[i - |a| - 1] && s[i + 1] == b[i - |a|];
      }
    }
  }

  /** The three replace steps, without the `'unknown'` fallback. */
  function NormalizeSlug(s: string): (r: string)
    ensures WellFormedSlug(r)
    ensures |r| <= |s|
  {
    var m := MaskChars(s);
    var c := CollapseHyphens(m);
    CollapsedMasked(m);
    TrimWellFormed(c);
    TrimHyphens(c)
  }

  lemma CollapsedMasked(m: string)
    requires forall i :: 0 <= i < |m| ==> IsSlugChar(m[i]) || m[i] == '-'
    ensures forall i :: 0 <= i < |CollapseHyphens(m)| ==> IsSlugChar(CollapseHyphens(m)[i]) || CollapseHyphens(m)[i] == '-'
  {
    var c := CollapseHyphens(m);
    forall i | 0 <= i < |c|
      ensures IsSlugChar(c[i]) || c[i] == '-'
    {
      assert c[i] in m;
    }
  }

  /** Trimming a masked, collapsed text leaves no hyphen at either end. */
  lemma TrimWellFormed(c: string)
    requires forall i :: 0 <= i < |c| ==> IsSlugChar(c[i]) || c[i] == '-'
    requires NoDoubleHyphen(c)
    ensures WellFormedSlug(TrimHyphens(c)) && |TrimHyphens(c)| <= |c|
  {
    assert |c| > 0 && c[0] == '-' ==> |c| == 1 || c[1] != '-';
  }

  /**
   * `generateSlug(text)` of import-categories.js, add-socks.js and
   * add-fishoil.js (and, for string arguments, of generate-mass-categories.js):
   * the empty text and a text that normalises to nothing both give
   * `'unknown'`; anything else gives its normalised form.
   */
  function GenerateSlug(text: string): (r: string)
    ensures WellFormedSlug(r) && r != []
    ensures text == [] || NormalizeSlug(text) == [] ==> r == "unknown"
    ensures NormalizeSlug(text) != [] ==> r == NormalizeSlug(text)
  {
    if text == [] then "unknown"
    else
      var n := NormalizeSlug(text);
      if n == [] then "unknown" else n
  }

  // ---------------------------------------------------------------------
  // Normalisation leaves a well-formed slug alone.
  // ---------------------------------------------------------------------

  lemma MaskCharsUnchanged(s: string)
    requires forall i :: 0 <= i < |s| ==> IsSlugChar(s[i]) || s[i] == '-'
    ensures MaskChars(s) == s
  {
  }

  lemma {:induction false} CollapseHyphensUnchanged(s: string)
    requires NoDoubleHyphen(s)
    ensures CollapseHyphens(s) == s
    decreases |s|
  {
    if s != [] {
      CollapseHyphensUnchanged(s[1..]);
    }
  }

  /** Normalising a well-formed slug returns it unchanged. */
  lemma NormalizeSlugUnchanged(s: string)
    requires WellFormedSlug(s)
    ensures NormalizeSlug(s) == s
  {
    MaskCharsUnchanged(s);
    CollapseHyphensUnchanged(s);
  }

  /** `generateSlug` is idempotent: a slug is its own slug. */
  lemma GenerateSlugIdempotent(text: string)
    ensures GenerateSlug(GenerateSlug(text)) == GenerateSlug(text)
  {
    var r := GenerateSlug(text);
    NormalizeSlugUnchanged(r);
  }

  /** A non-empty well-formed name (for instance a purely CJK name) is its own slug. */
  lemma GenerateSlugOfSlug(name: string)
    requires WellFormedSlug(name) && name != []
    ensures GenerateSlug(name) == name
  {
    NormalizeSlugUnchanged(name);
  }
}
