/** The row count the server-paged tables guess when the server returns
    only the rows of one page and no total: a short page is the last one,
    a full page promises exactly one more. */
module CountEstimate {
  import opened Arith
  import opened Pagination

  /** The estimate from the number `len` of rows page `page` returned. */
  function EstimateTotal(page: int, len: nat, size: nat): (est: int)
    ensures len < size ==> est == (page - 1) * size + len
  {
    if len < size && page == 1 then len
    else if len < size then (page - 1) * size + len
    else page * size + 1
  }

  /** The estimate never undercounts the rows seen through this page. */
  lemma EstimateCoversSeen(page: int, len: nat, size: nat)
    requires page >= 1 && len <= size
    ensures EstimateTotal(page, len, size) >= (page - 1) * size + len
  {
    if len >= size {
      assert page * size + 1 == (page - 1) * size + size + 1;
    }
  }

  /** After a full page the pager offers exactly one further page. */
  lemma FullPageOffersOneMore(page: int, len: nat, size: nat)
    requires page >= 1 && size > 0 && len >= size
    ensures EstimateTotal(page, len, size) >= 0
    ensures TotalPages(EstimateTotal(page, len, size), size) == page + 1
  {
    var est := page * size + 1;
    assert est == EstimateTotal(page, len, size);
    assert est + size - 1 == (page + 1) * size;
    DivExact(page + 1, size);
  }

  /** After a non-empty short page the pager offers no further page: the
      current page is the last. */
  lemma ShortPageIsLast(page: int, len: nat, size: nat)
    requires page >= 1 && 1 <= len < size
    ensures EstimateTotal(page, len, size) >= 1
    ensures TotalPages(EstimateTotal(page, len, size), size) == page
  {
    var est := (page - 1) * size + len;
    MulNonNegative(page - 1, size);
    assert est + size - 1 == page * size + (len - 1);
    DivWithRemainder(page, size, len - 1);
  }

  /** An empty page after the first, as when the last row was deleted,
      leaves the current page one past the last. */
  lemma EmptyLaterPage(page: int, size: nat)
    requires page >= 2 && size > 0
    ensures EstimateTotal(page, 0, size) >= 0
    ensures TotalPages(EstimateTotal(page, 0, size), size) == page - 1
  {
    var est := (page - 1) * size;
    MulNonNegative(page - 1, size);
    assert est + size - 1 == (page - 1) * size + (size - 1);
    DivWithRemainder(page - 1, size, size - 1);
  }
}
