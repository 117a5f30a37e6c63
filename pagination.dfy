/** The pagination facts attached to one page of a larger result set
    (`PagedModel.PageMetadata`): page size, current page number, total number of
    elements and total number of pages. A value is built by one of two validating
    constructors, which reject any negative argument with an argument error. */
module Pagination {
  import opened Wrappers

  /** The one way construction fails: an argument that is negative. */
  datatype Error = InvalidArgument

  datatype PageMetadata = PageMetadata(size: int, number: int, totalElements: int, totalPages: int)
  {
    /** Every field is non-negative; no relation between them is required. */
    predicate Valid() {
      size >= 0 && number >= 0 && totalElements >= 0 && totalPages >= 0
    }
  }

  /** `pages` pages of `size` elements each are just enough for `totalElements`:
      they hold all of them, and one page fewer would not. */
  ghost predicate JustEnoughPages(size: int, totalElements: int, pages: int)
  {
    (pages - 1) * size < totalElements <= pages * size
  }

  /** The number of pages derived when none is given: the ceiling of
      totalElements / size, and no pages at all for a page size of zero. */
  function TotalPages(size: int, totalElements: int): (pages: int)
    requires size >= 0 && totalElements >= 0
    ensures pages >= 0
    ensures size == 0 ==> pages == 0
    ensures size > 0 ==> JustEnoughPages(size, totalElements, pages)
  {
    if size == 0 then 0
    else (totalElements + size - 1) / size
  }

  /** The derived page count is the least number of pages that holds every element:
      any page count holds them all exactly when it is at least TotalPages. */
  lemma TotalPagesIsLeast(size: int, totalElements: int, pages: int)
    requires size > 0 && totalElements >= 0
    ensures pages * size >= totalElements <==> pages >= TotalPages(size, totalElements)
  {
  }

  /** The four-argument constructor: rejects a negative size, number, total number of
      elements or total number of pages, and otherwise keeps all four as given (the page
      count is not checked against the other fields). */
  function MakeWithTotalPages(size: int, number: int, totalElements: int, totalPages: int)
    : (r: Result<PageMetadata, Error>)
    ensures r.Err? <==> size < 0 || number < 0 || totalElements < 0 || totalPages < 0
    ensures r.Err? ==> r.error == InvalidArgument
    ensures r.Ok? ==> r.value.Valid()
    ensures r.Ok? ==> r.value.size == size && r.value.number == number
                      && r.value.totalElements == totalElements && r.value.totalPages == totalPages
  {
    if size < 0 || number < 0 || totalElements < 0 || totalPages < 0 then Err(InvalidArgument)
    else Ok(PageMetadata(size, number, totalElements, totalPages))
  }

  /** The three-argument constructor: the same validation, with the page count derived
      from the size and the total number of elements. */
  function Make(size: int, number: int, totalElements: int): (r: Result<PageMetadata, Error>)
    ensures r.Err? <==> size < 0 || number < 0 || totalElements < 0
    ensures r.Err? ==> r.error == InvalidArgument
    ensures r.Ok? ==> r.value.Valid()
    ensures r.Ok? ==> r.value.size == size && r.value.number == number
                      && r.value.totalElements == totalElements
    ensures r.Ok? && size == 0 ==> r.value.totalPages == 0
    ensures r.Ok? && size > 0 ==> JustEnoughPages(size, totalElements, r.value.totalPages)
  {
    if size < 0 || number < 0 || totalElements < 0 then Err(InvalidArgument)
    else MakeWithTotalPages(size, number, totalElements, TotalPages(size, totalElements))
  }

  // The cases the unit test fixes.

  /** The shared fixture (10, 1, 200) is accepted, with 20 pages. */
  lemma FixtureMetadata()
    ensures Make(10, 1, 200) == Ok(PageMetadata(10, 1, 200, 20))
  {
  }

  lemma PreventsNegativePageSize()
    ensures Make(-1, 0, 0) == Err(InvalidArgument)
  {
  }

  lemma PreventsNegativePageNumber()
    ensures Make(0, -1, 0) == Err(InvalidArgument)
  {
  }

  lemma PreventsNegativeTotalElements()
    ensures Make(0, 0, -1) == Err(InvalidArgument)
  {
  }

  lemma PreventsNegativeTotalPages()
    ensures MakeWithTotalPages(0, 0, 0, -1) == Err(InvalidArgument)
  {
  }

  /** Page number 1 with no elements at all is accepted: nothing relates the page number to
      the number of elements. */
  lemma AllowsOneIndexedPages()
    ensures Make(10, 1, 0) == Ok(PageMetadata(10, 1, 0, 0))
  {
  }

  /** 16 elements in pages of 5 need 4 pages. */
  lemma CalculatesTotalPagesCorrectly()
    ensures Make(5, 0, 16).Ok? && Make(5, 0, 16).value.totalPages == 4
  {
  }
}
