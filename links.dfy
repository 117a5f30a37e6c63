/** Hypermedia links and the search for a link by its relation. A link is a pair of an
    opaque target (href) and a relation name; "next" and "prev" are the relation names of
    the IANA Link Relations registry that RFC 8288 (Web Linking), section 2.1.1, refers to. */
module Links {
  import opened Wrappers

  datatype Link = Link(href: string, rel: string)

  const NEXT: string := "next"
  const PREV: string := "prev"

  /** Position of the first link with relation `rel`, or |links| when there is none. */
  function FirstIndexOf(links: seq<Link>, rel: string): (k: nat)
    ensures k <= |links|
    ensures k < |links| ==> links[k].rel == rel
    ensures forall j :: 0 <= j < k ==> links[j].rel != rel
  {
    if links == [] then 0
    else if links[0].rel == rel then 0
    else 1 + FirstIndexOf(links[1..], rel)
  }

  /** The first link, in insertion order, whose relation is `rel`; None when no link has it. */
  function FirstWithRel(links: seq<Link>, rel: string): (r: Option<Link>)
    ensures r.None? <==> forall i :: 0 <= i < |links| ==> links[i].rel != rel
    ensures r.Some? ==> r.value.rel == rel
    ensures r.Some? ==> exists k :: 0 <= k < |links| && links[k] == r.value
                                    && forall j :: 0 <= j < k ==> links[j].rel != rel
  {
    var k := FirstIndexOf(links, rel);
    if k < |links| then Some(links[k]) else None
  }

  /** Appending a link moves the first match only when there was none before. */
  lemma {:induction false} FirstIndexOfAppend(links: seq<Link>, l: Link, rel: string)
    ensures FirstIndexOf(links + [l], rel)
      == if FirstIndexOf(links, rel) < |links| then FirstIndexOf(links, rel)
         else if l.rel == rel then |links| else |links| + 1
  {
    if links != [] {
      assert (links + [l])[1..] == links[1..] + [l];
      FirstIndexOfAppend(links[1..], l, rel);
    }
  }

  /** Appending a link keeps an earlier match, and otherwise makes the new link the match
      exactly when it carries the relation. */
  lemma FirstWithRelAppend(links: seq<Link>, l: Link, rel: string)
    ensures FirstWithRel(links + [l], rel)
      == if FirstWithRel(links, rel).Some? then FirstWithRel(links, rel)
         else if l.rel == rel then Some(l) else None
  {
    FirstIndexOfAppend(links, l, rel);
    var k := FirstIndexOf(links, rel);
    if k < |links| {
      assert (links + [l])[k] == links[k];
    }
  }

  /** After a link is added, a search for its relation finds a link, whatever its href. */
  lemma AddedRelationIsFound(links: seq<Link>, l: Link)
    ensures FirstWithRel(links + [l], l.rel).Some?
    ensures FirstWithRel(links, l.rel).None? ==> FirstWithRel(links + [l], l.rel) == Some(l)
  {
    FirstWithRelAppend(links, l, l.rel);
  }
}
