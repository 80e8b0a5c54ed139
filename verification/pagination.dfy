/**
 * The list view's paging in server.js: the skip/limit arithmetic, the
 * previous/next targets and the window of page links.
 */
module Pagination {
  /** The list view shows `limit` = 100 categories per page. */
  const PageLimit: nat := 100

  // ---------------------------------------------------------------------
  // skip, totalPages, previous and next.
  // ---------------------------------------------------------------------

  /** `(page - 1) * limit`: the number of categories before the page. */
  function Skip(page: int, limit: nat): int {
    (page - 1) * limit
  }

  /** `Math.ceil(total / limit)`: the fewest pages of `limit` that hold `total` categories. */
  function TotalPages(total: nat, limit: nat): (t: nat)
    requires limit > 0
    ensures total == 0 ==> t == 0
    ensures total > 0 ==> (t - 1) * limit < total <= t * limit
  {
    var q := total / limit;
    var r := total % limit;
    assert total == q * limit + r;
    if r == 0 then q else
      assert (q + 1) * limit == q * limit + limit;
      q + 1
  }

  /** The categories shown on a page: the ones whose index `x` has `skip <= x < skip + limit`. */
  predicate OnPage(x: int, page: int, limit: nat) {
    Skip(page, limit) <= x < Skip(page, limit) + limit
  }

  /**
   * Pages 1..totalPages split the indexes 0..total-1: every index is on
   * exactly one of them.
   */
  lemma PagesCoverOnce(total: nat, limit: nat, x: int)
    requires limit > 0 && 0 <= x < total
    ensures 1 <= x / limit + 1 <= TotalPages(total, limit)
    ensures OnPage(x, x / limit + 1, limit)
    ensures forall p :: OnPage(x, p, limit) ==> p == x / limit + 1
  {
    var t := TotalPages(total, limit);
    var q := x / limit;
    assert x == q * limit + x % limit;
    assert Skip(q + 1, limit) == q * limit;
    if q + 1 > t {
      MulMonotone(t, q, limit);
      assert false;
    }
    forall p | OnPage(x, p, limit) ensures p == q + 1 {
      if p < q + 1 {
        MulMonotone(p, q, limit);
        assert false;
      } else if p > q + 1 {
        MulMonotone(q + 1, p - 1, limit);
        assert false;
      }
    }
  }

  lemma MulMonotone(a: int, b: int, c: nat)
    requires a <= b
    ensures a * c <= b * c
  {
    assert b * c - a * c == (b - a) * c;
  }

  /** `Math.max(1, page - 1)`. */
  function PrevPage(page: int): (p: int)
    ensures p >= 1
    ensures page > 1 ==> p == page - 1
    ensures page <= 1 ==> p == 1
  {
    if page - 1 > 1 then page - 1 else 1
  }

  /** `Math.min(totalPages, page + 1)`. */
  function NextPage(page: int, totalPages: int): (p: int)
    ensures p <= totalPages
    ensures page < totalPages ==> p == page + 1
    ensures page >= totalPages ==> p == totalPages
  {
    if page + 1 < totalPages then page + 1 else totalPages
  }

  /** From a page inside 1..totalPages, both links stay inside 1..totalPages. */
  lemma LinksStayInRange(page: int, totalPages: int)
    requires 1 <= page <= totalPages
    ensures 1 <= PrevPage(page) <= page && page <= NextPage(page, totalPages) <= totalPages
  {
  }

  // ---------------------------------------------------------------------
  // The window of page links.
  // ---------------------------------------------------------------------

  datatype PageItem = Num(n: int) | Gap

  /** A page number shown as a link: the first, the last, and the two on either side of `page`. */
  predicate Listed(i: int, page: int, totalPages: int) {
    i == 1 || i == totalPages || (page - 2 <= i && i <= page + 2)
  }

  /** A position marked `'...'` when it is not listed. */
  predicate Marked(i: int, page: int) {
    i == page - 3 || i == page + 3
  }

  /** The entry pushed for position `i`, if any. */
  function EntryAt(i: int, page: int, totalPages: int): seq<PageItem> {
    if Listed(i, page, totalPages) then [Num(i)]
    else if Marked(i, page) then [Gap]
    else []
  }

  /** The entries pushed for positions 1..upTo, in order. */
  function Window(page: int, totalPages: int, upTo: int): seq<PageItem>
    decreases upTo
  {
    if upTo < 1 then [] else Window(page, totalPages, upTo - 1) + EntryAt(upTo, page, totalPages)
  }

  /** The positions that push an entry, in order. */
  function Shown(page: int, totalPages: int, upTo: int): seq<int>
    decreases upTo
  {
    if upTo < 1 then []
    else Shown(page, totalPages, upTo - 1) + (if Listed(upTo, page, totalPages) || Marked(upTo, page) then [upTo] else [])
  }

  /**
   * Entry k is the one for the k-th shown position: the number itself when
   * listed, `'...'` otherwise; the positions rise strictly and lie in 1..upTo.
   */
  lemma {:induction false} WindowByPosition(page: int, totalPages: int, upTo: int)
    ensures var w, s := Window(page, totalPages, upTo), Shown(page, totalPages, upTo);
      && |w| == |s|
      && (forall k :: 0 <= k < |s| ==> 1 <= s[k] <= upTo)
      && (forall k :: 0 <= k < |s| ==> w[k] == (if Listed(s[k], page, totalPages) then Num(s[k]) else Gap))
      && (forall k, l :: 0 <= k < l < |s| ==> s[k] < s[l])
    decreases upTo
  {
    if upTo >= 1 {
      WindowByPosition(page, totalPages, upTo - 1);
    }
  }

  lemma {:induction false} ShownMembership(page: int, totalPages: int, upTo: int, i: int)
    ensures i in Shown(page, totalPages, upTo) <==> 1 <= i <= upTo && (Listed(i, page, totalPages) || Marked(i, page))
    decreases upTo
  {
    if upTo >= 1 {
      ShownMembership(page, totalPages, upTo - 1, i);
      WindowByPosition(page, totalPages, upTo - 1);
    }
  }

  /** The links shown: the window when the list view has several pages and no search, nothing otherwise. */
  function PaginationOf(view: string, totalPages: int, search: string, page: int): seq<PageItem> {
    if view == "list" && totalPages > 1 && search == "" then Window(page, totalPages, totalPages) else []
  }

  /** Every listed page of 1..totalPages has its number in the window. */
  lemma WindowHasListed(page: int, totalPages: int, i: int)
    requires 1 <= i <= totalPages && Listed(i, page, totalPages)
    ensures Num(i) in Window(page, totalPages, totalPages)
  {
    var w := Window(page, totalPages, totalPages);
    var s := Shown(page, totalPages, totalPages);
    WindowByPosition(page, totalPages, totalPages);
    ShownMembership(page, totalPages, totalPages, i);
    var k :| 0 <= k < |s| && s[k] == i;
    assert w[k] == Num(i);
  }

  /** A number in the window is a listed page of 1..totalPages, shown at the position of that page. */
  lemma WindowNumberAt(page: int, totalPages: int, k: int, i: int)
    requires 0 <= k < |Window(page, totalPages, totalPages)| && Window(page, totalPages, totalPages)[k] == Num(i)
    ensures k < |Shown(page, totalPages, totalPages)| && Shown(page, totalPages, totalPages)[k] == i
    ensures 1 <= i <= totalPages && Listed(i, page, totalPages)
  {
    WindowByPosition(page, totalPages, totalPages);
  }

  /**
   * The window shown for several pages contains pages 1 and totalPages and
   * every page within two of `page`; a number appears only for such a page;
   * and the numbers rise strictly from left to right.
   */
  lemma PaginationWindow(page: int, totalPages: int)
    requires totalPages > 1
    ensures var w := PaginationOf("list", totalPages, "", page);
      && Num(1) in w && Num(totalPages) in w
      && (forall i :: 1 <= i <= totalPages && page - 2 <= i <= page + 2 ==> Num(i) in w)
      && (forall i :: Num(i) in w ==> 1 <= i <= totalPages && Listed(i, page, totalPages))
      && (forall k, l, a, b :: 0 <= k < l < |w| && w[k] == Num(a) && w[l] == Num(b) ==> a < b)
  {
    var w := Window(page, totalPages, totalPages);
    WindowHasListed(page, totalPages, 1);
    WindowHasListed(page, totalPages, totalPages);
    forall i | 1 <= i <= totalPages && page - 2 <= i <= page + 2 ensures Num(i) in w {
      WindowHasListed(page, totalPages, i);
    }
    forall i | Num(i) in w ensures 1 <= i <= totalPages && Listed(i, page, totalPages) {
      var k :| 0 <= k < |w| && w[k] == Num(i);
      WindowNumberAt(page, totalPages, k, i);
    }
    forall k, l, a, b | 0 <= k < l < |w| && w[k] == Num(a) && w[l] == Num(b) ensures a < b {
      WindowNumberAt(page, totalPages, k, a);
      WindowNumberAt(page, totalPages, l, b);
      WindowByPosition(page, totalPages, totalPages);
    }
  }

  /** Every `'...'` of the window stands for position page-3 or page+3, and that position is not listed. */
  lemma PaginationGaps(page: int, totalPages: int, k: int)
    requires 0 <= k < |Window(page, totalPages, totalPages)| && Window(page, totalPages, totalPages)[k] == Gap
    ensures k < |Shown(page, totalPages, totalPages)|
      && var p := Shown(page, totalPages, totalPages)[k];
         Marked(p, page) && !Listed(p, page, totalPages) && 1 < p < totalPages
  {
    WindowByPosition(page, totalPages, totalPages);
    var p := Shown(page, totalPages, totalPages)[k];
    assert p in Shown(page, totalPages, totalPages);
    ShownMembership(page, totalPages, totalPages, p);
  }

  /** The pagination loop: positions 1..totalPages, pushing a number, a `'...'` or nothing. */
  method BuildPagination(view: string, totalPages: int, search: string, page: int) returns (pagination: seq<PageItem>)
    ensures pagination == PaginationOf(view, totalPages, search, page)
  {
    pagination := [];
    if view == "list" && totalPages > 1 && search == "" {
      var i := 1;
      while i <= totalPages
        invariant 1 <= i <= totalPages + 1
        invariant pagination == Window(page, totalPages, i - 1)
      {
        if i == 1 || i == totalPages || (i >= page - 2 && i <= page + 2) {
          pagination := pagination + [Num(i)];
        } else if i == page - 3 || i == page + 3 {
          pagination := pagination + [Gap];
        }
        i := i + 1;
      }
    }
  }
}
