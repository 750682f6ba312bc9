/** The offset pagination the list endpoints of server/controllers share:
    `skip((page - 1) * limit).limit(limit)`, `Math.ceil(total / limit)` pages,
    and the vocabulary listing's prev/next links, for `page >= 1` and
    `limit >= 1`. */
module Paging {
  import opened Common

  /** `(page - 1) * limit`: how many results the page skips. */
  function StartIndex(page: nat, limit: nat): nat
    requires page >= 1
  {
    (page - 1) * limit
  }

  /** The results a page shows (MongoDB applies `skip` before `limit`). */
  function PageOf<T>(items: seq<T>, page: nat, limit: nat): (r: seq<T>)
    requires page >= 1 && limit >= 1
    ensures |r| <= limit
    ensures |r| == Max(0, Min(limit, |items| - StartIndex(page, limit)))
    ensures forall i :: 0 <= i < |r| ==> r[i] == items[StartIndex(page, limit) + i]
  {
    Slice(items, StartIndex(page, limit), StartIndex(page, limit) + limit)
  }

  /** `Math.ceil(total / limit)`. */
  function TotalPages(total: nat, limit: nat): (n: nat)
    requires limit >= 1
    ensures limit * (n - 1) < total <= limit * n
    ensures total == 0 <==> n == 0
  {
    var n := CeilDiv(total, limit);
    assert n >= 0 by {
      if n < 0 { PositiveFactor(limit, -n); }
    }
    assert total > 0 ==> n > 0 by {
      if total > 0 { PositiveFactor(limit, n); }
    }
    n
  }

  /** `pagination.prev` / `pagination.next` of the vocabulary listing. */
  datatype PageLinks = PageLinks(prev: Option<nat>, next: Option<nat>)

  function Links(page: nat, totalPages: nat): (l: PageLinks)
    requires page >= 1
    ensures l.prev.Some? <==> page > 1
    ensures l.next.Some? <==> page < totalPages
    ensures l.prev.Some? ==> l.prev.value + 1 == page
    ensures l.next.Some? ==> l.next.value == page + 1
  {
    PageLinks(if page > 1 then Some(page - 1) else None,
              if page < totalPages then Some(page + 1) else None)
  }

  /** A `next` link is offered exactly when the next page has results. */
  lemma NextLinkIffMoreResults<T>(items: seq<T>, page: nat, limit: nat)
    requires page >= 1 && limit >= 1
    ensures Links(page, TotalPages(|items|, limit)).next.Some? <==> |PageOf(items, page + 1, limit)| > 0
  {
    var n := TotalPages(|items|, limit);
    if page < n {
      MulMonotone(limit, page, n - 1);
    } else {
      MulMonotone(limit, n, page);
    }
  }

  /** A `prev` link is offered exactly when the page is not the first; every
      earlier page is full. */
  lemma EarlierPagesAreFull<T>(items: seq<T>, page: nat, limit: nat, earlier: nat)
    requires 1 <= earlier < page && limit >= 1
    requires |PageOf(items, page, limit)| > 0
    ensures |PageOf(items, earlier, limit)| == limit
    ensures Links(page, TotalPages(|items|, limit)).prev.Some?
  {
    MulMonotone(limit, earlier, page - 1);
  }

  lemma MulMonotone(a: nat, x: int, y: int)
    requires x <= y
    ensures a * x <= a * y
  {
  }

  /** Pages 1 to k, one after another. */
  function FirstPages<T>(items: seq<T>, limit: nat, k: nat): seq<T>
    requires limit >= 1
  {
    if k == 0 then [] else FirstPages(items, limit, k - 1) + PageOf(items, k, limit)
  }

  lemma {:induction false} FirstPagesArePrefix<T>(items: seq<T>, limit: nat, k: nat)
    requires limit >= 1
    ensures FirstPages(items, limit, k) == items[..Min(k * limit, |items|)]
  {
    if k > 0 {
      FirstPagesArePrefix(items, limit, k - 1);
      var lo := Min((k - 1) * limit, |items|);
      var hi := Min(k * limit, |items|);
      var page := PageOf(items, k, limit);
      assert (k - 1) * limit + limit == k * limit;
      assert page == items[lo..hi];
      assert items[..lo] + items[lo..hi] == items[..hi];
    }
  }

  /** Walking all `TotalPages` pages yields every result once, in order. */
  lemma AllPagesCoverResults<T>(items: seq<T>, limit: nat)
    requires limit >= 1
    ensures FirstPages(items, limit, TotalPages(|items|, limit)) == items
  {
    var n := TotalPages(|items|, limit);
    FirstPagesArePrefix(items, limit, n);
    assert Min(n * limit, |items|) == |items|;
  }
}
