# PagedModel and PageMetadata

A model of the pagination part of Spring HATEOAS as its unit test
`PagedModelUnitTest` pins it down.

- `PagedModel.PageMetadata` is an immutable value holding a page size, a page
  number, a total number of elements and a total number of pages. It has two
  constructors, one with all four values and one with three. Both reject a
  negative argument with an argument error. The three-argument one derives the
  page count as the ceiling of totalElements / size. Nothing ties the page number
  to the number of elements, so page 1 of an empty result is valid.
- `PagedModel` is a collection of domain objects with that metadata and an ordered
  list of links. `add` appends a link. `getNextLink` and `getPreviousLink` return
  the first link whose relation is the IANA relation "next" or "prev" (RFC 8288,
  Web Linking, section 2.1.1).

Files:

- `wrappers.dfy`: `Option` and `Result`.
- `pagination.dfy`: module `Pagination`. Metadata is a datatype, and the two
  constructors are functions that return a `Result`. The derived page count is a
  function whose contract and lemmas show it is the least number of pages that
  holds every element.
- `links.dfy`: module `Links`. A link is a value `(href, rel)`, and the search
  returns the first link with a given relation. A lemma says how appending a link
  changes what the search finds.
- `paged_model.dfy`: module `Paged`. `PagedModel` is a class whose `Add` method
  appends to its link sequence, and whose next and previous lookups are functions
  of that sequence. The test's fixture and its two link tests are client methods.

The implementations of `PagedModel`, `PageMetadata`, `Link` and
`IanaLinkRelations` are not part of this model. Their behaviour is taken from what
the test asserts, and the gaps are filled with the choices listed under
"## Left out".

## Model

| member | source | states |
|---|---|---|
| Pagination.MakeWithTotalPages | src/test/java/org/springframework/hateoas/PagedModelUnitTest.java:85-88 | Fails with InvalidArgument exactly when size, number, totalElements or totalPages is negative. Otherwise the result is valid and keeps all four values as given, with no cross-check of the page count. |
| Pagination.Make | src/test/java/org/springframework/hateoas/PagedModelUnitTest.java:61-80 | Fails with InvalidArgument exactly when size, number or totalElements is negative. Otherwise it keeps the three values, and its page count is 0 for size 0 and otherwise just enough pages for every element. |
| Pagination.TotalPages | src/test/java/org/springframework/hateoas/PagedModelUnitTest.java:101-103 | The derived page count is non-negative and 0 for page size 0. For a positive size, that many pages hold every element and one page fewer would not. |
| Pagination.TotalPagesIsLeast | src/test/java/org/springframework/hateoas/PagedModelUnitTest.java:101-103 | For a positive size, a page count holds every element exactly when it is at least the derived one, so the derived count is the least such. |
| Pagination.FixtureMetadata | src/test/java/org/springframework/hateoas/PagedModelUnitTest.java:33 | (10, 1, 200) is accepted with 20 pages. |
| Pagination.PreventsNegativePageSize | src/test/java/org/springframework/hateoas/PagedModelUnitTest.java:61-64 | (-1, 0, 0) is rejected with InvalidArgument. |
| Pagination.PreventsNegativePageNumber | src/test/java/org/springframework/hateoas/PagedModelUnitTest.java:69-72 | (0, -1, 0) is rejected with InvalidArgument. |
| Pagination.PreventsNegativeTotalElements | src/test/java/org/springframework/hateoas/PagedModelUnitTest.java:77-80 | (0, 0, -1) is rejected with InvalidArgument. |
| Pagination.PreventsNegativeTotalPages | src/test/java/org/springframework/hateoas/PagedModelUnitTest.java:85-88 | (0, 0, 0, -1) is rejected with InvalidArgument, even though the other fields are zero. |
| Pagination.AllowsOneIndexedPages | src/test/java/org/springframework/hateoas/PagedModelUnitTest.java:93-96 | (10, 1, 0) is accepted: page 1 with no elements, and 0 pages. |
| Pagination.CalculatesTotalPagesCorrectly | src/test/java/org/springframework/hateoas/PagedModelUnitTest.java:101-103 | (5, 0, 16) is accepted with 4 pages. |
| Links.FirstIndexOf | src/test/java/org/springframework/hateoas/PagedModelUnitTest.java:47 | The index is the first position holding a link with the relation, or the length when no link has it. |
| Links.FirstWithRel | src/test/java/org/springframework/hateoas/PagedModelUnitTest.java:47 | Absent exactly when no link has the relation. Otherwise it returns a link with that relation, and no earlier link has it. |
| Links.FirstIndexOfAppend | src/test/java/org/springframework/hateoas/PagedModelUnitTest.java:45-47 | After an append, the first match stays where it was, or becomes the new link if that has the relation, or stays absent. |
| Links.FirstWithRelAppend | src/test/java/org/springframework/hateoas/PagedModelUnitTest.java:45-47 | After an append, an earlier match is kept. Otherwise the new link is found exactly when it carries the relation. |
| Links.AddedRelationIsFound | src/test/java/org/springframework/hateoas/PagedModelUnitTest.java:42-56 | After a link is appended, a search for its relation finds a link whatever its href. The link found is the new one if there was no match before. |
| Paged.PagedModel.constructor | src/test/java/org/springframework/hateoas/PagedModelUnitTest.java:39 | A new collection keeps the content and the valid metadata it is given, and has no links. |
| Paged.PagedModel.Add | src/test/java/org/springframework/hateoas/PagedModelUnitTest.java:45 | Appends the link to the end of the link sequence; content and metadata are fixed at construction. |
| Paged.PagedModel.NextLink | src/test/java/org/springframework/hateoas/PagedModelUnitTest.java:47 | Absent exactly when no link has relation "next". Otherwise it returns the first link, in insertion order, with relation "next". |
| Paged.PagedModel.PreviousLink | src/test/java/org/springframework/hateoas/PagedModelUnitTest.java:55 | Absent exactly when no link has relation "prev". Otherwise it returns the first link, in insertion order, with relation "prev". |
| Paged.SetUp | src/test/java/org/springframework/hateoas/PagedModelUnitTest.java:33-40 | The fixture is a fresh, empty collection with no links and metadata (10, 1, 200, 20). |
| Paged.DiscoversNextLink | src/test/java/org/springframework/hateoas/PagedModelUnitTest.java:42-48 | On the fixture there is no next link at first. After a link with relation "next" and any href is added, the next link is that link. |
| Paged.DiscoversPreviousLink | src/test/java/org/springframework/hateoas/PagedModelUnitTest.java:50-56 | On the fixture there is no previous link at first. After a link with relation "prev" and any href is added, the previous link is that link. |

## Left out

- Integer width: the fields are Java `long` values. The model uses unbounded integers and does not model overflow near the `long` limits.
- Pagination.TotalPages: the page count is derived by exact integer ceiling division. The implementation is not part of this model, and any floating-point rounding it may do for very large values is not captured. A page size of 0 gives 0 pages, a choice the test does not assert.
- Pagination.Make: the error carries no message; which argument was rejected is not recorded.
- Links.FirstWithRel: relations are compared by exact string equality. `Link` and `IanaLinkRelations` are not part of this model, so only the two constants "next" and "prev" are modelled, not the registry.
- Link rendering, serialization (HAL/JSON) and URI templates: an href is an opaque string.
- Equality and hashing of metadata: the datatype's structural equality stands for them, and nothing about them is stated.
- Domain content: carried as a sequence that nothing inspects.
- The JUnit and AssertJ machinery (`@Before`, `@Test(expected = ...)`, `assertThat`): its assertions become the lemmas and client methods above.
- Concurrent use of a `PagedModel`: not modelled.
