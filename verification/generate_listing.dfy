/** The listing editor of `src/components/GenerateListing.tsx`: the feature
    list with its add and remove actions, the choice of platforms to
    publish on, and the draft/published status. */
module GenerateListing {
  import opened Text
  import opened Lists

  datatype ListingStatus = Draft | Ready | Published
  datatype PropertyType = House | Condo | Townhouse | Apartment | Commercial

  datatype GeneratedListing = GeneratedListing(
    id: string, title: string, address: string, price: int, kind: PropertyType,
    beds: int, baths: int, sqft: int, description: string,
    features: seq<string>, images: seq<string>, status: ListingStatus)

  datatype ListingPlatform = ListingPlatform(id: string, name: string, selected: bool)

  /** The features the editor opens with. */
  const InitialFeatures: seq<string> := ["Pool", "Modern Kitchen", "Hardwood Floors", "Smart Home", "2-Car Garage"]

  /** No feature is listed twice. */
  predicate Distinct(features: seq<string>) {
    forall i, j :: 0 <= i < j < |features| ==> features[i] != features[j]
  }

  lemma InitialFeaturesDistinct()
    ensures Distinct(InitialFeatures)
  {
    var f := InitialFeatures;
    assert f[0][0] == 'P' && f[1][0] == 'M' && f[2][0] == 'H' && f[3][0] == 'S' && f[4][0] == '2';
  }

  /** The add button takes the input only when, trimmed, it is not empty
      and not already a feature (compared exactly, case included). */
  predicate CanAdd(features: seq<string>, input: string) {
    !IsBlank(input) && Trim(input) !in features
  }

  /** The features after `handleAddFeature`. */
  function FeaturesAfterAdd(features: seq<string>, input: string): (r: seq<string>)
    ensures !IsBlank(input) ==> Trim(input) in r
    ensures CanAdd(features, input) ==> |r| == |features| + 1 && r[..|features|] == features
    ensures !CanAdd(features, input) ==> r == features
  {
    if CanAdd(features, input) then features + [Trim(input)] else features
  }

  /** The input box after `handleAddFeature`: cleared only when it was taken. */
  function InputAfterAdd(features: seq<string>, input: string): (r: string)
    ensures r == "" || r == input
    ensures r == "" <==> CanAdd(features, input) || input == ""
  {
    if CanAdd(features, input) then "" else input
  }

  /** Adding keeps the feature list free of duplicates. */
  lemma AddKeepsDistinct(features: seq<string>, input: string)
    requires Distinct(features)
    ensures Distinct(FeaturesAfterAdd(features, input))
  {
    if CanAdd(features, input) {
      var r := FeaturesAfterAdd(features, input);
      forall i, j | 0 <= i < j < |r| ensures r[i] != r[j] {
        if j == |features| {
          assert r[i] == features[i];
        }
      }
    }
  }

  /** The features after `handleRemoveFeature(feature)`: every copy of it
      goes, the rest keep their order. */
  function FeaturesAfterRemove(features: seq<string>, feature: string): (r: seq<string>)
    ensures feature !in r
    ensures forall f :: f in r <==> f in features && f != feature
  {
    Filter(features, (f: string) => f != feature)
  }

  /** Removing a feature just added undoes the addition. */
  lemma RemoveUndoesAdd(features: seq<string>, input: string)
    requires CanAdd(features, input)
    ensures FeaturesAfterRemove(FeaturesAfterAdd(features, input), Trim(input)) == features
  {
    var t := Trim(input);
    var keep := (f: string) => f != t;
    FilterAppend(features, [t], keep);
    FilterKeepsAll(features, keep);
    assert Filter([t], keep) == [];
  }

  /** Removing keeps the feature list free of duplicates. */
  lemma RemoveKeepsDistinct(features: seq<string>, feature: string)
    requires Distinct(features)
    ensures Distinct(FeaturesAfterRemove(features, feature))
  {
    RemoveKeepsDistinctBy(features, (f: string) => f != feature);
  }

  lemma {:induction false} RemoveKeepsDistinctBy(features: seq<string>, keep: string -> bool)
    requires Distinct(features)
    ensures Distinct(Filter(features, keep))
  {
    if features != [] {
      var rest := features[1..];
      assert Distinct(rest) by {
        forall i, j | 0 <= i < j < |rest| ensures rest[i] != rest[j] {
          assert rest[i] == features[i + 1] && rest[j] == features[j + 1];
        }
      }
      RemoveKeepsDistinctBy(rest, keep);
      var tail := Filter(rest, keep);
      assert features[0] !in rest by {
        forall i | 0 <= i < |rest| ensures rest[i] != features[0] {
          assert rest[i] == features[i + 1];
        }
      }
      if keep(features[0]) {
        var r := [features[0]] + tail;
        forall i, j | 0 <= i < j < |r| ensures r[i] != r[j] {
          assert r[j] == tail[j - 1];
          if i == 0 { assert tail[j - 1] in tail; } else { assert r[i] == tail[i - 1]; }
        }
      }
    }
  }

  function IsSelected(): ListingPlatform -> bool {
    (p: ListingPlatform) => p.selected
  }

  /** `selectedPlatformCount`. */
  function SelectedCount(platforms: seq<ListingPlatform>): (r: nat)
    ensures r <= |platforms|
    ensures r == 0 <==> forall i :: 0 <= i < |platforms| ==> !platforms[i].selected
  {
    var chosen := Filter(platforms, IsSelected());
    assert chosen != [] ==> chosen[0] in chosen && chosen[0] in platforms && chosen[0].selected;
    |chosen|
  }

  /** The publish button is enabled only with at least one platform chosen. */
  function PublishEnabled(platforms: seq<ListingPlatform>): (r: bool)
    ensures r <==> exists i :: 0 <= i < |platforms| && platforms[i].selected
  {
    SelectedCount(platforms) != 0
  }

  /** The platforms after `handleTogglePlatform(id)`. */
  function ToggleIn(platforms: seq<ListingPlatform>, id: string): (r: seq<ListingPlatform>)
    ensures |r| == |platforms|
    ensures forall i :: 0 <= i < |r| && platforms[i].id != id ==> r[i] == platforms[i]
    ensures forall i :: 0 <= i < |r| && platforms[i].id == id ==>
              r[i].selected == !platforms[i].selected && r[i].(selected := platforms[i].selected) == platforms[i]
  {
    seq(|platforms|, i requires 0 <= i < |platforms| =>
      if platforms[i].id == id then platforms[i].(selected := !platforms[i].selected) else platforms[i])
  }

  /** Toggling the same platform twice restores the selection. */
  lemma ToggleTwice(platforms: seq<ListingPlatform>, id: string)
    ensures ToggleIn(ToggleIn(platforms, id), id) == platforms
  {
  }

  /** Every platform, with `selected` set to `value` (select all, deselect all). */
  function SetAll(platforms: seq<ListingPlatform>, value: bool): (r: seq<ListingPlatform>)
    ensures |r| == |platforms|
    ensures forall i :: 0 <= i < |r| ==> r[i] == platforms[i].(selected := value)
  {
    seq(|platforms|, i requires 0 <= i < |platforms| => platforms[i].(selected := value))
  }

  /** Select-all counts every platform; deselect-all counts none and
      disables publishing. */
  lemma SelectAllCounts(platforms: seq<ListingPlatform>)
    ensures SelectedCount(SetAll(platforms, true)) == |platforms|
    ensures SelectedCount(SetAll(platforms, false)) == 0
    ensures !PublishEnabled(SetAll(platforms, false))
  {
    FilterKeepsAll(SetAll(platforms, true), IsSelected());
  }

  /** The editor's state. */
  class Editor {
    var listing: GeneratedListing
    var platforms: seq<ListingPlatform>
    var newFeature: string
    var platformDialogOpen: bool

    constructor(initialListing: GeneratedListing, initialPlatforms: seq<ListingPlatform>)
      ensures listing == initialListing && platforms == initialPlatforms
      ensures newFeature == "" && !platformDialogOpen
    {
      listing := initialListing;
      platforms := initialPlatforms;
      newFeature := "";
      platformDialogOpen := false;
    }

    method HandleAddFeature()
      modifies this
      ensures listing == old(listing).(features := FeaturesAfterAdd(old(listing.features), old(newFeature)))
      ensures newFeature == InputAfterAdd(old(listing.features), old(newFeature))
      ensures platforms == old(platforms) && platformDialogOpen == old(platformDialogOpen)
      ensures Distinct(old(listing.features)) ==> Distinct(listing.features)
    {
      if Distinct(listing.features) {
        AddKeepsDistinct(listing.features, newFeature);
      }
      var features := listing.features;
      listing := listing.(features := FeaturesAfterAdd(features, newFeature));
      newFeature := InputAfterAdd(features, newFeature);
    }

    method HandleRemoveFeature(feature: string)
      modifies this
      ensures listing == old(listing).(features := FeaturesAfterRemove(old(listing.features), feature))
      ensures platforms == old(platforms) && newFeature == old(newFeature) && platformDialogOpen == old(platformDialogOpen)
      ensures Distinct(old(listing.features)) ==> Distinct(listing.features)
    {
      if Distinct(listing.features) {
        RemoveKeepsDistinct(listing.features, feature);
      }
      listing := listing.(features := FeaturesAfterRemove(listing.features, feature));
    }

    method HandleTogglePlatform(id: string)
      modifies this
      ensures platforms == ToggleIn(old(platforms), id)
      ensures listing == old(listing) && newFeature == old(newFeature) && platformDialogOpen == old(platformDialogOpen)
    {
      platforms := ToggleIn(platforms, id);
    }

    method HandleSelectAll()
      modifies this
      ensures platforms == SetAll(old(platforms), true) && SelectedCount(platforms) == |platforms|
      ensures listing == old(listing) && newFeature == old(newFeature) && platformDialogOpen == old(platformDialogOpen)
    {
      SelectAllCounts(platforms);
      platforms := SetAll(platforms, true);
    }

    method HandleDeselectAll()
      modifies this
      ensures platforms == SetAll(old(platforms), false) && SelectedCount(platforms) == 0
      ensures listing == old(listing) && newFeature == old(newFeature) && platformDialogOpen == old(platformDialogOpen)
    {
      SelectAllCounts(platforms);
      platforms := SetAll(platforms, false);
    }

    method HandleSaveDraft()
      modifies this
      ensures listing == old(listing).(status := Draft)
      ensures platforms == old(platforms) && newFeature == old(newFeature) && platformDialogOpen == old(platformDialogOpen)
    {
      listing := listing.(status := Draft);
    }

    /** The handler itself does not look at the count; only the disabled
        button keeps it from running with nothing selected. */
    method HandlePublish()
      modifies this
      ensures listing == old(listing).(status := Published) && !platformDialogOpen
      ensures platforms == old(platforms) && newFeature == old(newFeature)
    {
      listing := listing.(status := Published);
      platformDialogOpen := false;
    }
  }
}
