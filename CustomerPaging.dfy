/**
 * The page defaulting of the customer listing endpoint: a missing or
 * out-of-range page number or page size is replaced by its default before
 * the page request is built.
 */
module CustomerPaging {
  import opened Wrappers

  /** Java's 32-bit Integer. */
  newtype int32 = x: int | -0x8000_0000 <= x < 0x8000_0000

  const DefaultPageNumber: int32 := 0
  const DefaultPageSize: int32 := 25

  /** A page request: which page, and how many entries per page. */
  datatype PageRequest = PageRequest(pageNumber: int32, pageSize: int32)

  /** Replaces a missing or negative page number and a missing or non-positive page size by the defaults. */
  function Normalize(pageNumber: Option<int32>, pageSize: Option<int32>): (r: PageRequest)
    ensures r.pageNumber >= 0 && r.pageSize >= 1
    ensures r.pageNumber == (if pageNumber.Some? && pageNumber.value >= 0 then pageNumber.value else DefaultPageNumber)
    ensures r.pageSize == (if pageSize.Some? && pageSize.value >= 1 then pageSize.value else DefaultPageSize)
  {
    var number := if pageNumber.None? || pageNumber.value < 0 then DefaultPageNumber else pageNumber.value;
    var size := if pageSize.None? || pageSize.value < 1 then DefaultPageSize else pageSize.value;
    PageRequest(number, size)
  }

  /** Normalizing an already normalized request changes nothing. */
  lemma NormalizeIsIdempotent(pageNumber: Option<int32>, pageSize: Option<int32>)
    ensures var r := Normalize(pageNumber, pageSize);
      Normalize(Some(r.pageNumber), Some(r.pageSize)) == r
  {
  }

  /** Building a page request rejects a negative page index and a page size below one. */
  function PageRequestOf(page: int32, size: int32): (r: PageRequest)
    requires page >= 0 && size >= 1
    ensures r.pageNumber == page && r.pageSize == size
  {
    PageRequest(page, size)
  }

  /** The page request listCustomers hands to the customer service; it never violates PageRequestOf's argument checks. */
  function ListCustomers(pageNumber: Option<int32>, pageSize: Option<int32>): (r: PageRequest)
    ensures r == Normalize(pageNumber, pageSize)
  {
    var normalized := Normalize(pageNumber, pageSize);
    PageRequestOf(normalized.pageNumber, normalized.pageSize)
  }
}
