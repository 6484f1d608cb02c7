/** The "My Listings" page of `src/pages/MyListings.tsx`: the status tabs
    and search box that select listings, the per-status counts, and the
    duplicate, archive and delete actions that rewrite the `listings`
    state. Dates are the `YYYY-MM-DD` strings the page stores; the fresh
    id and today's date are parameters. */
module MyListings {
  import opened Text
  import opened Lists

  datatype Status = Draft | Active | Sold | Archived
  datatype PropertyType = House | Condo | Townhouse | Apartment | Commercial

  datatype Listing = Listing(
    id: string, title: string, address: string, price: int, kind: PropertyType,
    beds: int, baths: int, sqft: int, image: string, status: Status,
    platforms: seq<string>, views: int, inquiries: int,
    createdAt: string, updatedAt: string)

  /** A status tab: "all" or one status. */
  datatype StatusFilter = AllStatuses | WithStatus(status: Status)

  const CopySuffix: string := " (Copy)"

  /** The status half of the filter. */
  predicate MatchesStatus(filter: StatusFilter, l: Listing) {
    filter.AllStatuses? || l.status == filter.status
  }

  /** The search half: the lower-cased query occurs in the lower-cased
      title or address. */
  predicate MatchesSearch(query: string, l: Listing) {
    ContainsScan(Lower(l.title), Lower(query)) || ContainsScan(Lower(l.address), Lower(query))
  }

  /** `filteredListings`: the listings that pass both halves of the
      filter, in their original order. */
  function FilteredListings(listings: seq<Listing>, filter: StatusFilter, query: string): (r: seq<Listing>)
    ensures |r| <= |listings|
    ensures forall i :: 0 <= i < |r| ==> MatchesStatus(filter, r[i])
    ensures forall i :: 0 <= i < |r| ==>
              Contains(Lower(r[i].title), Lower(query)) || Contains(Lower(r[i].address), Lower(query))
    ensures forall l :: l in r ==> l in listings
    ensures forall i :: (0 <= i < |listings| && MatchesStatus(filter, listings[i])
                         && MatchesSearch(query, listings[i])) ==> listings[i] in r
  {
    Filter(listings, (l: Listing) => MatchesStatus(filter, l) && MatchesSearch(query, l))
  }

  /** The empty query matches every listing, so the "all" tab with an empty
      search box shows the whole list. */
  lemma EmptySearchShowsAll(listings: seq<Listing>)
    ensures FilteredListings(listings, AllStatuses, "") == listings
  {
    forall l: Listing ensures MatchesSearch("", l) {
      assert OccursAt(Lower(l.title), "", 0);
    }
    FilterKeepsAll(listings, (l: Listing) => MatchesStatus(AllStatuses, l) && MatchesSearch("", l));
  }

  /** The listings with one status, as a filter predicate. */
  function HasStatus(status: Status): Listing -> bool {
    (l: Listing) => l.status == status
  }

  /** `getStatusCount`: the whole list for "all", else the number of
      listings with that status. */
  function StatusCount(listings: seq<Listing>, filter: StatusFilter): (r: nat)
    ensures filter.AllStatuses? ==> r == |listings|
    ensures filter.WithStatus? ==> r == |FilteredListings(listings, filter, "")|
  {
    if filter.AllStatuses? then |listings|
    else
      var status := filter.status;
      assert Filter(listings, HasStatus(status)) == FilteredListings(listings, filter, "") by {
        FilterSameAs(listings, status);
      }
      |Filter(listings, HasStatus(status))|
  }

  /** Filtering by one status with an empty query is filtering by status. */
  lemma {:induction false} FilterSameAs(listings: seq<Listing>, status: Status)
    ensures Filter(listings, HasStatus(status)) == FilteredListings(listings, WithStatus(status), "")
  {
    if listings != [] {
      FilterSameAs(listings[1..], status);
      assert OccursAt(Lower(listings[0].title), "", 0);
    }
  }

  /** The four status tabs count every listing exactly once: their sum is
      the count on the "all" tab. */
  lemma {:induction false} StatusCountsSum(listings: seq<Listing>)
    ensures StatusCount(listings, WithStatus(Draft)) + StatusCount(listings, WithStatus(Active))
            + StatusCount(listings, WithStatus(Sold)) + StatusCount(listings, WithStatus(Archived))
            == StatusCount(listings, AllStatuses)
  {
    if listings != [] {
      StatusCountsSum(listings[1..]);
    }
  }

  /** The copy `handleDuplicate` makes: a fresh id, " (Copy)" after the
      title, a draft published nowhere with no views or inquiries, dated
      today; everything else is the original's. */
  function DuplicateOf(l: Listing, newId: string, today: string): (r: Listing)
    ensures r.id == newId && r.title == l.title + CopySuffix
    ensures r.status == Draft && r.platforms == [] && r.views == 0 && r.inquiries == 0
    ensures r.createdAt == today && r.updatedAt == today
    ensures r.address == l.address && r.price == l.price && r.kind == l.kind && r.beds == l.beds
            && r.baths == l.baths && r.sqft == l.sqft && r.image == l.image
  {
    l.(id := newId, title := l.title + CopySuffix, status := Draft, platforms := [],
       views := 0, inquiries := 0, createdAt := today, updatedAt := today)
  }

  /** Duplicating adds one listing, and it is counted as a draft. */
  lemma DuplicateCounts(listings: seq<Listing>, l: Listing, newId: string, today: string)
    ensures StatusCount([DuplicateOf(l, newId, today)] + listings, AllStatuses) == StatusCount(listings, AllStatuses) + 1
    ensures StatusCount([DuplicateOf(l, newId, today)] + listings, WithStatus(Draft))
            == StatusCount(listings, WithStatus(Draft)) + 1
    ensures forall s :: s != Draft ==>
              StatusCount([DuplicateOf(l, newId, today)] + listings, WithStatus(s)) == StatusCount(listings, WithStatus(s))
  {
    var d := DuplicateOf(l, newId, today);
    forall s ensures Filter([d] + listings, HasStatus(s)) == (if s == Draft then [d] else []) + Filter(listings, HasStatus(s)) {
      FilterCons(d, listings, HasStatus(s));
    }
  }

  /** The status `handleArchive` gives: an archived listing goes back to
      the drafts, any other is archived. */
  function ToggledArchive(status: Status): (r: Status)
    ensures r == Draft || r == Archived
    ensures r == Draft <==> status == Archived
  {
    if status == Archived then Draft else Archived
  }

  /** Archiving twice does not restore the original status: anything but an
      archived listing ends as a draft. */
  lemma ArchiveTwice(status: Status)
    ensures ToggledArchive(ToggledArchive(status)) == (if status == Archived then Archived else Draft)
    ensures status == Active ==> ToggledArchive(ToggledArchive(status)) != status
  {
  }

  /** The list after `handleArchive(id)`: the listings with that id have
      their status toggled, the rest are untouched. */
  function ArchiveIn(listings: seq<Listing>, id: string): (r: seq<Listing>)
    ensures |r| == |listings|
    ensures forall i :: 0 <= i < |r| && listings[i].id != id ==> r[i] == listings[i]
    ensures forall i :: 0 <= i < |r| && listings[i].id == id ==>
              r[i] == listings[i].(status := ToggledArchive(listings[i].status))
  {
    seq(|listings|, i requires 0 <= i < |listings| =>
      if listings[i].id == id then listings[i].(status := ToggledArchive(listings[i].status)) else listings[i])
  }

  /** Archiving keeps every listing in place: the "all" count, the ids
      and every field but the status. */
  lemma ArchiveKeepsListings(listings: seq<Listing>, id: string)
    ensures StatusCount(ArchiveIn(listings, id), AllStatuses) == StatusCount(listings, AllStatuses)
    ensures forall i :: 0 <= i < |listings| ==>
              ArchiveIn(listings, id)[i].(status := listings[i].status) == listings[i]
  {
  }

  /** An id no listing has leaves the list as it was. */
  lemma ArchiveUnknownIsNoOp(listings: seq<Listing>, id: string)
    requires forall i :: 0 <= i < |listings| ==> listings[i].id != id
    ensures ArchiveIn(listings, id) == listings
  {
  }

  /** The list after `handleDelete(id)`: every listing with that id is gone,
      the others are kept in order. */
  function DeleteIn(listings: seq<Listing>, id: string): (r: seq<Listing>)
    ensures forall l :: l in r <==> l in listings && l.id != id
  {
    Filter(listings, OtherId(id))
  }

  /** The listings a delete keeps, as a filter predicate. */
  function OtherId(id: string): Listing -> bool {
    (l: Listing) => l.id != id
  }

  /** Deleting an id that is already gone changes nothing: deleting is
      idempotent. */
  lemma DeleteIdempotent(listings: seq<Listing>, id: string)
    ensures DeleteIn(DeleteIn(listings, id), id) == DeleteIn(listings, id)
  {
    FilterIdempotent(listings, OtherId(id));
  }

  /** Deleting from a list made of two parts deletes from each part, so the
      survivors keep their order. */
  lemma DeleteKeepsOrder(a: seq<Listing>, b: seq<Listing>, id: string)
    ensures DeleteIn(a + b, id) == DeleteIn(a, id) + DeleteIn(b, id)
  {
    FilterAppend(a, b, OtherId(id));
  }

  /** The page's `listings` state. */
  class MyListingsPage {
    var listings: seq<Listing>

    constructor(initial: seq<Listing>)
      ensures listings == initial
    {
      listings := initial;
    }

    /** `handleDuplicate`: the copy goes in front of the unchanged list. */
    method HandleDuplicate(l: Listing, newId: string, today: string)
      modifies this
      ensures listings == [DuplicateOf(l, newId, today)] + old(listings)
      ensures listings[1..] == old(listings)
    {
      listings := [DuplicateOf(l, newId, today)] + listings;
    }

    /** `handleArchive`: toggles the status of the listings with that id. */
    method HandleArchive(l: Listing)
      modifies this
      ensures listings == ArchiveIn(old(listings), l.id)
    {
      listings := ArchiveIn(listings, l.id);
    }

    /** `handleDelete`: removes the listings with that id. */
    method HandleDelete(l: Listing)
      modifies this
      ensures listings == DeleteIn(old(listings), l.id)
      ensures forall x :: x in listings ==> x.id != l.id
    {
      listings := DeleteIn(listings, l.id);
    }
  }
}
