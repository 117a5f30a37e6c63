/** A collection resource with pagination metadata and an ordered, growing list of links
    (`PagedModel`). */
module Paged {
  import opened Wrappers
  import opened Pagination
  import opened Links

  class PagedModel<T> {
    /** The domain objects of this page; carried, never inspected. */
    const content: seq<T>
    const metadata: PageMetadata
    /** The links added so far, in insertion order. */
    var links: seq<Link>

    constructor (content: seq<T>, metadata: PageMetadata)
      requires metadata.Valid()
      ensures this.content == content && this.metadata == metadata && links == []
    {
      this.content := content;
      this.metadata := metadata;
      links := [];
    }

    /** Appends a link; content and metadata cannot change. */
    method Add(link: Link)
      modifies this`links
      ensures links == old(links) + [link]
    {
      links := links + [link];
    }

    /** The first link whose relation is "next", if any. */
    function NextLink(): (r: Option<Link>)
      reads this
      ensures r.None? <==> forall i :: 0 <= i < |links| ==> links[i].rel != NEXT
      ensures r.Some? ==> r.value.rel == NEXT && r.value in links
      ensures r.Some? ==> exists k :: 0 <= k < |links| && links[k] == r.value
                                      && forall j :: 0 <= j < k ==> links[j].rel != NEXT
    {
      FirstWithRel(links, NEXT)
    }

    /** The first link whose relation is "prev", if any. */
    function PreviousLink(): (r: Option<Link>)
      reads this
      ensures r.None? <==> forall i :: 0 <= i < |links| ==> links[i].rel != PREV
      ensures r.Some? ==> r.value.rel == PREV && r.value in links
      ensures r.Some? ==> exists k :: 0 <= k < |links| && links[k] == r.value
                                      && forall j :: 0 <= j < k ==> links[j].rel != PREV
    {
      FirstWithRel(links, PREV)
    }
  }

  /** The fixture: an empty collection carrying the metadata (10, 1, 200). */
  method SetUp<T>() returns (resources: PagedModel<T>)
    ensures fresh(resources)
    ensures resources.content == [] && resources.links == []
    ensures resources.metadata == PageMetadata(10, 1, 200, 20)
  {
    var metadata := Make(10, 1, 200);
    FixtureMetadata();
    resources := new PagedModel<T>([], metadata.value);
  }

  /** On the fixture, no navigation link is there before one is added, and after a link
      with relation "next" is added the next link is that link, whatever its href. */
  method DiscoversNextLink<T>(href: string) returns (before: Option<Link>, next: Option<Link>)
    ensures before == None
    ensures next == Some(Link(href, NEXT))
  {
    var resources := SetUp<T>();
    before := resources.NextLink();
    resources.Add(Link(href, NEXT));
    AddedRelationIsFound([], Link(href, NEXT));
    next := resources.NextLink();
  }

  /** The same for a link with relation "prev" and the previous link. */
  method DiscoversPreviousLink<T>(href: string) returns (before: Option<Link>, previous: Option<Link>)
    ensures before == None
    ensures previous == Some(Link(href, PREV))
  {
    var resources := SetUp<T>();
    before := resources.PreviousLink();
    resources.Add(Link(href, PREV));
    AddedRelationIsFound([], Link(href, PREV));
    previous := resources.PreviousLink();
  }
}
