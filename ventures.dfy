/**
 * The ventures carousel (frontend/src/components/Ventures.tsx): three
 * ventures per page, a page counter that wraps around in both directions,
 * and the slice of the list shown for the current page.
 */
module Ventures {

  const VenturesPerPage: nat := 3

  /** `Math.ceil(count / venturesPerPage)`: the fewest pages of three that hold `count` items. */
  function TotalPages(count: nat): (pages: nat)
    ensures pages * VenturesPerPage >= count
    ensures pages == 0 || (pages - 1) * VenturesPerPage < count
  {
    (count + VenturesPerPage - 1) / VenturesPerPage
  }

  /** `nextVentures`: one page forward, the last page wrapping to the first. */
  function NextIndex(i: nat, totalPages: nat): (j: nat)
    requires i < totalPages
    ensures j < totalPages
    ensures i + 1 < totalPages ==> j == i + 1
    ensures i + 1 == totalPages ==> j == 0
  {
    (i + 1) % totalPages
  }

  /** `prevVentures`: one page back, the first page wrapping to the last. */
  function PrevIndex(i: nat, totalPages: nat): (j: nat)
    requires i < totalPages
    ensures j < totalPages
    ensures 0 < i ==> j == i - 1
    ensures i == 0 ==> j == totalPages - 1
  {
    (i - 1 + totalPages) % totalPages
  }

  /** Going back after going forward, or forward after going back, returns to the same page. */
  lemma NextPrevInverse(i: nat, totalPages: nat)
    requires i < totalPages
    ensures PrevIndex(NextIndex(i, totalPages), totalPages) == i
    ensures NextIndex(PrevIndex(i, totalPages), totalPages) == i
  {
  }

  function Min(a: nat, b: nat): nat {
    if a < b then a else b
  }

  /**
   * `VENTURES_DATA.slice(startIndex, startIndex + venturesPerPage)` with
   * `startIndex = i * venturesPerPage`: at most three items, and exactly the
   * items from position `3i` up to `3i + 3` or the end of the list.
   */
  function Page<T>(items: seq<T>, i: nat): (page: seq<T>)
    ensures |page| <= VenturesPerPage
    ensures i * VenturesPerPage <= |items| ==>
              page == items[i * VenturesPerPage .. Min(i * VenturesPerPage + VenturesPerPage, |items|)]
    ensures |items| < i * VenturesPerPage ==> page == []
  {
    var start := Min(i * VenturesPerPage, |items|);
    var end := Min(i * VenturesPerPage + VenturesPerPage, |items|);
    items[start..end]
  }

  /** Pages 0 .. k-1, one after the other. */
  function PagesBefore<T>(items: seq<T>, k: nat): seq<T>
    decreases k
  {
    if k == 0 then [] else PagesBefore(items, k - 1) + Page(items, k - 1)
  }

  lemma {:induction false} PagesBeforeIsPrefix<T>(items: seq<T>, k: nat)
    ensures PagesBefore(items, k) == items[..Min(k * VenturesPerPage, |items|)]
    decreases k
  {
    if k > 0 {
      PagesBeforeIsPrefix(items, k - 1);
      var a := Min((k - 1) * VenturesPerPage, |items|);
      var b := Min(k * VenturesPerPage, |items|);
      assert items[..a] + items[a..b] == items[..b];
    }
  }

  /** Walking through pages 0 .. totalPages-1 shows every item once, in order. */
  lemma PagesCoverAllItems<T>(items: seq<T>)
    ensures PagesBefore(items, TotalPages(|items|)) == items
  {
    PagesBeforeIsPrefix(items, TotalPages(|items|));
  }

  /** The carousel's state: the list shown and the current page index. */
  class Carousel<T> {
    const items: seq<T>
    var currentIndex: nat

    ghost predicate Valid()
      reads this
    {
      currentIndex == 0 || currentIndex < TotalPages(|items|)
    }

    function PageCount(): nat
      reads this
    {
      TotalPages(|items|)
    }

    /** The ventures on screen. */
    function Shown(): seq<T>
      reads this
    {
      Page(items, currentIndex)
    }

    constructor(items: seq<T>)
      ensures Valid() && this.items == items && currentIndex == 0
    {
      this.items := items;
      currentIndex := 0;
    }

    /** The "next" arrow, rendered only when there is more than one page. */
    method NextVentures()
      requires Valid() && PageCount() > 1
      modifies this
      ensures Valid()
      ensures currentIndex == NextIndex(old(currentIndex), PageCount())
    {
      currentIndex := (currentIndex + 1) % PageCount();
    }

    /** The "previous" arrow, rendered only when there is more than one page. */
    method PrevVentures()
      requires Valid() && PageCount() > 1
      modifies this
      ensures Valid()
      ensures currentIndex == PrevIndex(old(currentIndex), PageCount())
    {
      currentIndex := (currentIndex - 1 + PageCount()) % PageCount();
    }

    /** The dot of page `k`. */
    method GoToPage(k: nat)
      requires k < PageCount()
      modifies this
      ensures Valid() && currentIndex == k
    {
      currentIndex := k;
    }
  }
}
