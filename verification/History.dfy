/** Pagination of `getRideHistory`: OFFSET and LIMIT over the rides in their fixed order. */
module History {
  import opened Base

  /** `LIMIT limit OFFSET (page - 1) * limit`; the query schema makes both at least 1. */
  function Page<T>(rides: seq<T>, page: nat, limit: nat): seq<T>
    requires page >= 1 && limit >= 1
  {
    var offset := (page - 1) * limit;
    rides[Min(offset, |rides|)..Min(offset + limit, |rides|)]
  }

  /** `Math.ceil(total / limit)` */
  function TotalPages(total: nat, limit: nat): nat
    requires limit >= 1
  {
    (total + limit - 1) / limit
  }

  function FirstPages<T>(rides: seq<T>, pages: nat, limit: nat): seq<T>
    requires limit >= 1
  {
    if pages == 0 then [] else FirstPages(rides, pages - 1, limit) + Page(rides, pages, limit)
  }

  /** The first n pages are the first n * limit rides. */
  lemma {:induction false} FirstPagesArePrefix<T>(rides: seq<T>, pages: nat, limit: nat)
    requires limit >= 1
    ensures FirstPages(rides, pages, limit) == rides[..Min(pages * limit, |rides|)]
  {
    if pages > 0 {
      FirstPagesArePrefix(rides, pages - 1, limit);
      assert pages * limit == (pages - 1) * limit + limit;
    }
  }

  lemma LastPageBounds(total: nat, limit: nat)
    requires limit >= 1
    ensures var n := TotalPages(total, limit);
            n * limit >= total && (n >= 1 ==> (n - 1) * limit < total)
  {
    var n := TotalPages(total, limit);
    var rest := (total + limit - 1) % limit;
    assert total + limit - 1 == limit * n + rest;
    assert n * limit == limit * n;
    assert n >= 1 ==> (n - 1) * limit == n * limit - limit;
  }

  lemma MoreIsMore(a: nat, b: nat, limit: nat)
    requires a <= b
    ensures a * limit <= b * limit
  {
  }

  lemma PageSize<T>(rides: seq<T>, page: nat, limit: nat)
    requires page >= 1 && limit >= 1
    ensures var before, after := (page - 1) * limit, page * limit;
            |Page(rides, page, limit)| == if after <= |rides| then limit else if before <= |rides| then |rides| - before else 0
  {
    assert page * limit == (page - 1) * limit + limit;
  }

  /** The pages partition the history: pages 1 to totalPages concatenate to exactly the sorted list, every
      page but the last is full and the last is not empty, and every page after it is empty. */
  lemma PagesPartitionHistory<T>(rides: seq<T>, limit: nat)
    requires limit >= 1
    ensures var n := TotalPages(|rides|, limit);
            && FirstPages(rides, n, limit) == rides
            && (forall page :: 1 <= page < n ==> |Page(rides, page, limit)| == limit)
            && (n >= 1 ==> 1 <= |Page(rides, n, limit)| <= limit)
            && (forall page :: page > n ==> Page(rides, page, limit) == [])
  {
    hide Page;
    hide TotalPages;
    hide FirstPages;
    var n := TotalPages(|rides|, limit);
    LastPageBounds(|rides|, limit);
    FirstPagesArePrefix(rides, n, limit);
    forall page | 1 <= page < n ensures |Page(rides, page, limit)| == limit {
      PageSize(rides, page, limit);
      MoreIsMore(page, n - 1, limit);
    }
    if n >= 1 {
      PageSize(rides, n, limit);
    }
    forall page | page > n ensures Page(rides, page, limit) == [] {
      PageSize(rides, page, limit);
      MoreIsMore(n, page - 1, limit);
    }
  }
}
