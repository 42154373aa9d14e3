/**
 * Offset pagination as the list endpoints compute it:
 * `skip = (page - 1) * limit`, `take = limit`, and the page count
 * `Math.ceil(total / limit)`, which for integers is a ceiling division.
 */
module Paging {

  /** `(page - 1) * limit`: the number of records on the pages before `page`. */
  function Skip(page: int, limit: int): int {
    (page - 1) * limit
  }

  /** `Math.ceil(total / limit)`: the least number of pages of `limit` records that hold `total`. */
  function CeilDiv(total: nat, limit: nat): (pages: nat)
    requires limit > 0
    ensures pages * limit >= total
    ensures pages == 0 || (pages - 1) * limit < total
    ensures pages == 0 <==> total == 0
  {
    var q := (total + limit - 1) / limit;
    assert total + limit - 1 == q * limit + (total + limit - 1) % limit;
    q
  }

  /** `Math.max(1, Math.ceil(total / limit))`: never fewer than one page. */
  function PageCountAtLeastOne(total: nat, limit: nat): (pages: nat)
    requires limit > 0
    ensures pages >= 1
    ensures total > 0 ==> pages == CeilDiv(total, limit)
    ensures total == 0 ==> pages == 1
  {
    var p := CeilDiv(total, limit);
    if p < 1 then 1 else p
  }

  /** Multiplying by a positive limit keeps the order of page numbers. */
  lemma MulOrder(x: int, y: int, limit: int)
    requires limit > 0
    ensures x <= y <==> x * limit <= y * limit
  {
    if x <= y {
      assert y * limit - x * limit == (y - x) * limit;
    } else {
      assert x * limit - y * limit == (x - y) * limit;
    }
  }

  /** Record `i` is on page `page` exactly when `page` is `i / limit + 1`: the pages partition the records. */
  lemma PageOfRecord(page: int, limit: int, i: nat)
    requires page >= 1 && limit > 0
    ensures Skip(page, limit) <= i < Skip(page, limit) + limit <==> page == i / limit + 1
  {
    var q := i / limit;
    assert i == q * limit + i % limit;
    assert (q + 1) * limit == q * limit + limit;
    assert page * limit == (page - 1) * limit + limit;
    MulOrder(q + 1, page - 1, limit);
    MulOrder(page, q, limit);
  }

  /** Every record lies on a page between 1 and the page count, and the last page is not empty. */
  lemma PagesCoverRecords(total: nat, limit: nat, i: nat)
    requires limit > 0 && i < total
    ensures 1 <= i / limit + 1 <= CeilDiv(total, limit)
    ensures Skip(CeilDiv(total, limit), limit) < total
  {
    var pages := CeilDiv(total, limit);
    var q := i / limit;
    assert i == q * limit + i % limit;
    MulOrder(pages, q, limit);
  }
}
