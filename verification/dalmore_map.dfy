/** The map screen of src/components/map/DalmoreMap.tsx: the set of visible species
    that the layer controls change and the weed-patch layer reads, and the accuracy
    line under the current position. Map rendering and centring are outside the model. */
module DalmoreMap {
  import opened Types
  import opened WeedPatchLayer
  import GpsAccuracy

  /** The set after handleSpeciesToggle: the species is removed if present and added
      if absent. */
  function Toggle(visible: set<string>, species: string): (r: set<string>)
    ensures species in r <==> species !in visible
    ensures forall t :: t != species ==> (t in r <==> t in visible)
  {
    if species in visible then visible - {species} else visible + {species}
  }

  /** Toggling the same species twice restores the set. */
  lemma ToggleTwice(visible: set<string>, species: string)
    ensures Toggle(Toggle(visible, species), species) == visible
  {
  }

  /** Toggles of different species commute. */
  lemma TogglesCommute(visible: set<string>, a: string, b: string)
    ensures Toggle(Toggle(visible, a), b) == Toggle(Toggle(visible, b), a)
  {
  }

  class SpeciesVisibility {
    var visibleSpecies: set<string>

    /** The set starts empty. */
    constructor ()
      ensures visibleSpecies == {}
    {
      visibleSpecies := {};
    }

    method HandleSpeciesToggle(species: string)
      modifies this
      ensures visibleSpecies == Toggle(old(visibleSpecies), species)
    {
      var newVisible := visibleSpecies;
      if species in newVisible {
        newVisible := newVisible - {species};
      } else {
        newVisible := newVisible + {species};
      }
      visibleSpecies := newVisible;
    }

    /** handleToggleAllSpecies: whatever the label said, the set becomes empty. */
    method HandleToggleAllSpecies()
      modifies this
      ensures visibleSpecies == {}
    {
      visibleSpecies := {};
    }
  }

  /** Because an empty set means "no filter", toggling all, even from the button
      labelled "Hide All", leaves every patch drawn. */
  lemma ToggleAllShowsEverything(v: SpeciesVisibility, patches: seq<WeedPatch>)
    requires v.visibleSpecies == {}
    ensures FilteredPatches(patches, v.visibleSpecies) == patches
  {
    NoFilterShowsAll(patches);
  }

  /** getAccuracyColor of the map's position line. */
  function AccuracyColor(acc: real): string
  {
    if acc <= 5.0 then "text-green-600" else if acc <= 10.0 then "text-yellow-600" else "text-red-600"
  }

  /** getAccuracyText of the map's position line. */
  function AccuracyText(acc: real): string
  {
    if acc <= 5.0 then "Excellent" else if acc <= 10.0 then "Good" else "Poor"
  }

  /** The map's line and the badge use the same thresholds: same text, and a colour
      class that the badge's classes begin with. */
  lemma AgreesWithBadge(acc: real)
    ensures AccuracyText(acc) == GpsAccuracy.AccuracyText(acc)
    ensures var c := AccuracyColor(acc);
            var b := GpsAccuracy.AccuracyColor(acc);
            |c| <= |b| && b[..|c|] == c
    ensures AccuracyText(acc) == GpsAccuracy.RatingName(GpsAccuracy.RatingOf(acc))
  {
    GpsAccuracy.ColorAndTextAgree(acc);
  }
}
