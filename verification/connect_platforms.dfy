/** The "Connect Platforms" page of `src/pages/ConnectPlatforms.tsx`: the
    search and region filter, the connected/available split, and the
    connect dialog, disconnect and sync actions that rewrite the
    `platforms` state. */
module ConnectPlatforms {
  import opened Wrappers
  import opened Text
  import opened Lists

  datatype Platform = Platform(
    id: string, name: string, description: string, connected: bool,
    lastSync: Option<string>, region: string)

  const AllRegions: string := "all"
  const JustNow: string := "Just now"

  /** Only the name is searched, lower-cased on both sides; the region must
      equal the filter unless the filter is "all". */
  predicate Matches(query: string, regionFilter: string, p: Platform) {
    ContainsScan(Lower(p.name), Lower(query)) && (regionFilter == AllRegions || p.region == regionFilter)
  }

  /** `filteredPlatforms`, in the original order. */
  function FilteredPlatforms(platforms: seq<Platform>, query: string, regionFilter: string): (r: seq<Platform>)
    ensures forall p :: p in r <==> p in platforms && Matches(query, regionFilter, p)
    ensures forall i :: 0 <= i < |r| ==> Contains(Lower(r[i].name), Lower(query))
  {
    Filter(platforms, IsShown(query, regionFilter))
  }

  function IsShown(query: string, regionFilter: string): Platform -> bool {
    (p: Platform) => Matches(query, regionFilter, p)
  }

  /** The description is not searched: two platforms that differ only in
      their description are both shown or both hidden. */
  lemma DescriptionNotSearched(p: Platform, description: string, query: string, regionFilter: string)
    ensures FilteredPlatforms([p], query, regionFilter) == [p]
            <==> FilteredPlatforms([p.(description := description)], query, regionFilter)
                 == [p.(description := description)]
  {
  }

  function IsConnected(): Platform -> bool {
    (p: Platform) => p.connected
  }

  function IsAvailable(): Platform -> bool {
    (p: Platform) => !p.connected
  }

  /** `connectedPlatforms`: the shown platforms that are connected. */
  function ConnectedPlatforms(shown: seq<Platform>): (r: seq<Platform>)
    ensures forall p :: p in r <==> p in shown && p.connected
  {
    Filter(shown, IsConnected())
  }

  /** `availablePlatforms`: the shown platforms that are not. */
  function AvailablePlatforms(shown: seq<Platform>): (r: seq<Platform>)
    ensures forall p :: p in r <==> p in shown && !p.connected
  {
    Filter(shown, IsAvailable())
  }

  /** The two lists split the shown platforms: each appears in exactly one. */
  lemma SplitIsPartition(shown: seq<Platform>)
    ensures |ConnectedPlatforms(shown)| + |AvailablePlatforms(shown)| == |shown|
    ensures forall p :: p in shown ==> (p in ConnectedPlatforms(shown) <==> p !in AvailablePlatforms(shown))
  {
    FilterPartition(shown, IsConnected(), IsAvailable());
  }

  /** Every platform with the id, rewritten by `update`; the others kept.
      This is the `prev.map` of the three actions. */
  function UpdateWhere(platforms: seq<Platform>, id: string, update: Platform -> Platform): (r: seq<Platform>)
    ensures |r| == |platforms|
    ensures forall i :: 0 <= i < |r| ==> r[i] == (if platforms[i].id == id then update(platforms[i]) else platforms[i])
  {
    seq(|platforms|, i requires 0 <= i < |platforms| =>
      if platforms[i].id == id then update(platforms[i]) else platforms[i])
  }

  function ConnectUpdate(): Platform -> Platform {
    (p: Platform) => p.(connected := true, lastSync := Some(JustNow))
  }

  function DisconnectUpdate(): Platform -> Platform {
    (p: Platform) => p.(connected := false, lastSync := None)
  }

  function SyncUpdate(): Platform -> Platform {
    (p: Platform) => p.(lastSync := Some(JustNow))
  }

  /** The list after confirming the connection of `id`. */
  function ConnectIn(platforms: seq<Platform>, id: string): (r: seq<Platform>)
    ensures |r| == |platforms|
    ensures forall i :: 0 <= i < |r| && platforms[i].id == id ==> r[i].connected && r[i].lastSync == Some(JustNow)
    ensures forall i :: 0 <= i < |r| ==> SameEntry(r[i], platforms[i])
    ensures forall i :: 0 <= i < |r| && platforms[i].id != id ==> r[i] == platforms[i]
  {
    UpdateWhere(platforms, id, ConnectUpdate())
  }

  /** The list after disconnecting `id`. */
  function DisconnectIn(platforms: seq<Platform>, id: string): (r: seq<Platform>)
    ensures |r| == |platforms|
    ensures forall i :: 0 <= i < |r| && platforms[i].id == id ==> !r[i].connected && r[i].lastSync.None?
    ensures forall i :: 0 <= i < |r| ==> SameEntry(r[i], platforms[i])
    ensures forall i :: 0 <= i < |r| && platforms[i].id != id ==> r[i] == platforms[i]
  {
    UpdateWhere(platforms, id, DisconnectUpdate())
  }

  /** The list after syncing `id`: only the sync time moves. */
  function SyncIn(platforms: seq<Platform>, id: string): (r: seq<Platform>)
    ensures |r| == |platforms|
    ensures forall i :: 0 <= i < |r| && platforms[i].id == id ==> r[i].lastSync == Some(JustNow)
    ensures forall i :: 0 <= i < |r| ==> SameEntry(r[i], platforms[i]) && r[i].connected == platforms[i].connected
    ensures forall i :: 0 <= i < |r| && platforms[i].id != id ==> r[i] == platforms[i]
  {
    UpdateWhere(platforms, id, SyncUpdate())
  }

  /** Two entries describe the same platform at the same place: id, name,
      description and region agree. */
  predicate SameEntry(a: Platform, b: Platform) {
    a.id == b.id && a.name == b.name && a.description == b.description && a.region == b.region
  }

  /** What `SyncIn` makes of the entry `p`. */
  function Synced(p: Platform, id: string): Platform {
    if p.id == id then SyncUpdate()(p) else p
  }

  lemma SyncInCons(p: Platform, s: seq<Platform>, id: string)
    ensures SyncIn([p] + s, id) == [Synced(p, id)] + SyncIn(s, id)
  {
    var l, r := SyncIn([p] + s, id), [Synced(p, id)] + SyncIn(s, id);
    forall i | 0 <= i < |l| ensures l[i] == r[i] {
      if i > 0 { assert ([p] + s)[i] == s[i - 1]; }
    }
  }

  /** Syncing commutes with any filter that does not look at the sync time. */
  lemma {:induction false} FilterSyncIn(platforms: seq<Platform>, id: string, f: Platform -> bool)
    requires forall p :: f(Synced(p, id)) == f(p)
    ensures Filter(SyncIn(platforms, id), f) == SyncIn(Filter(platforms, f), id)
  {
    if platforms == [] {
      assert SyncIn(platforms, id) == [];
    } else {
      var p0, rest := platforms[0], platforms[1..];
      assert platforms == [p0] + rest;
      SyncInCons(p0, rest, id);
      FilterCons(Synced(p0, id), SyncIn(rest, id), f);
      FilterCons(p0, rest, f);
      FilterSyncIn(rest, id, f);
      if f(p0) {
        SyncInCons(p0, Filter(rest, f), id);
      }
    }
  }

  /** Syncing never moves a platform between the two lists: each list after
      the sync is the list before it, synced. */
  lemma SyncKeepsSplit(platforms: seq<Platform>, id: string, query: string, regionFilter: string)
    ensures ConnectedPlatforms(FilteredPlatforms(SyncIn(platforms, id), query, regionFilter))
            == SyncIn(ConnectedPlatforms(FilteredPlatforms(platforms, query, regionFilter)), id)
    ensures AvailablePlatforms(FilteredPlatforms(SyncIn(platforms, id), query, regionFilter))
            == SyncIn(AvailablePlatforms(FilteredPlatforms(platforms, query, regionFilter)), id)
  {
    var shown := FilteredPlatforms(platforms, query, regionFilter);
    FilterSyncIn(platforms, id, IsShown(query, regionFilter));
    FilterSyncIn(shown, id, IsConnected());
    FilterSyncIn(shown, id, IsAvailable());
  }

  /** Connecting and then disconnecting a platform leaves it disconnected
      with no sync time, whatever it was before. */
  lemma ConnectThenDisconnect(platforms: seq<Platform>, id: string)
    ensures forall i :: 0 <= i < |platforms| && platforms[i].id == id ==>
              DisconnectIn(ConnectIn(platforms, id), id)[i] == platforms[i].(connected := false, lastSync := None)
  {
  }

  /** The page's state. */
  class ConnectPlatformsPage {
    var platforms: seq<Platform>
    var searchQuery: string
    var regionFilter: string
    var connectDialogOpen: bool
    var selectedPlatform: Option<Platform>
    var apiKey: string

    constructor(initial: seq<Platform>)
      ensures platforms == initial && searchQuery == "" && regionFilter == AllRegions
      ensures !connectDialogOpen && selectedPlatform.None? && apiKey == ""
    {
      platforms := initial;
      searchQuery := "";
      regionFilter := AllRegions;
      connectDialogOpen := false;
      selectedPlatform := None;
      apiKey := "";
    }

    function Shown(): seq<Platform>
      reads this
    {
      FilteredPlatforms(platforms, searchQuery, regionFilter)
    }

    /** `handleConnect`: selects the platform, opens the dialog with an
        empty key. The list does not change yet. */
    method HandleConnect(p: Platform)
      modifies this
      ensures selectedPlatform == Some(p) && connectDialogOpen && apiKey == ""
      ensures platforms == old(platforms) && searchQuery == old(searchQuery) && regionFilter == old(regionFilter)
    {
      selectedPlatform := Some(p);
      connectDialogOpen := true;
      apiKey := "";
    }

    /** `handleConfirmConnect`: without a selection nothing happens;
        otherwise the selected id is connected and the dialog closes. The
        key typed into the dialog plays no part. */
    method HandleConfirmConnect()
      modifies this
      ensures old(selectedPlatform).None? ==>
                platforms == old(platforms) && connectDialogOpen == old(connectDialogOpen)
      ensures old(selectedPlatform).Some? ==>
                platforms == ConnectIn(old(platforms), old(selectedPlatform).value.id) && !connectDialogOpen
      ensures selectedPlatform == old(selectedPlatform) && apiKey == old(apiKey)
      ensures searchQuery == old(searchQuery) && regionFilter == old(regionFilter)
    {
      if selectedPlatform.None? {
        return;
      }
      platforms := ConnectIn(platforms, selectedPlatform.value.id);
      connectDialogOpen := false;
    }

    method HandleDisconnect(p: Platform)
      modifies this
      ensures platforms == DisconnectIn(old(platforms), p.id)
      ensures connectDialogOpen == old(connectDialogOpen) && selectedPlatform == old(selectedPlatform) && apiKey == old(apiKey)
      ensures searchQuery == old(searchQuery) && regionFilter == old(regionFilter)
    {
      platforms := DisconnectIn(platforms, p.id);
    }

    method HandleSync(p: Platform)
      modifies this
      ensures platforms == SyncIn(old(platforms), p.id)
      ensures connectDialogOpen == old(connectDialogOpen) && selectedPlatform == old(selectedPlatform) && apiKey == old(apiKey)
      ensures searchQuery == old(searchQuery) && regionFilter == old(regionFilter)
    {
      platforms := SyncIn(platforms, p.id);
    }
  }
}
