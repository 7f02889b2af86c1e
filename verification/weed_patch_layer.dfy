/** The weed-patch layer of src/components/map/WeedPatchLayer.tsx: which patches are
    drawn for the set of visible species, and how each patch's circle looks. Loading
    and the change subscription are backend calls outside the model. */
module WeedPatchLayer {
  import opened Common
  import opened Types

  /** `species || 'Unknown'`: an empty species is listed and drawn as "Unknown". */
  function SpeciesLabel(species: string): (r: string)
    ensures r != ""
    ensures species != "" ==> r == species
  {
    if species == "" then "Unknown" else species
  }

  function IsVisible(visible: set<string>): WeedPatch -> bool
  {
    (p: WeedPatch) => SpeciesLabel(p.species) in visible
  }

  /** filteredPatches: no filter while the set is empty; otherwise the patches whose
      species label is in the set, in their original order. */
  function FilteredPatches(patches: seq<WeedPatch>, visible: set<string>): (r: seq<WeedPatch>)
    ensures |r| <= |patches|
  {
    if |visible| > 0 then Filter(patches, IsVisible(visible)) else patches
  }

  /** With an empty set every patch is drawn. */
  lemma NoFilterShowsAll(patches: seq<WeedPatch>)
    ensures FilteredPatches(patches, {}) == patches
  {
  }

  /** With a non-empty set, a patch is drawn exactly when its label is in the set, as
      often as it was fetched, and the drawn patches keep the fetched order. */
  lemma FilterShowsVisible(patches: seq<WeedPatch>, visible: set<string>)
    requires visible != {}
    ensures var r := FilteredPatches(patches, visible);
            IsSubsequence(r, patches) &&
            (forall p :: p in r <==> p in patches && SpeciesLabel(p.species) in visible) &&
            (forall p :: multiset(r)[p] == if SpeciesLabel(p.species) in visible then multiset(patches)[p] else 0)
  {
    FilterSubsequence(patches, IsVisible(visible));
    FilterMembers(patches, IsVisible(visible));
  }

  /** Whatever the set, the drawn patches are a subsequence of the fetched ones. */
  lemma FilteredIsSubsequence(patches: seq<WeedPatch>, visible: set<string>)
    ensures IsSubsequence(FilteredPatches(patches, visible), patches)
  {
    if |visible| > 0 {
      FilterSubsequence(patches, IsVisible(visible));
    } else {
      SubsequenceOfSelf(patches);
    }
  }

  /** A patch's circle on the map. */
  datatype CircleStyle = CircleStyle(centerLat: real, centerLng: real, radius: real,
                                     color: string, fillColor: string,
                                     opacity: real, fillOpacity: real, weight: nat)

  /** Patches still to be weeded are drawn more opaque than weeded ones. */
  function StatusOpacity(s: Status): (o: real)
    ensures 0.0 < o <= 1.0
  {
    if s == NeedsWeeding then 0.8 else 0.4
  }

  /** The circle drawn for one patch. */
  function PatchCircle(p: WeedPatch): (c: CircleStyle)
    ensures c.radius * 2.0 == p.diameter
    ensures c.color == c.fillColor == SpeciesColor(SpeciesLabel(p.species))
    ensures c.opacity == StatusOpacity(p.status) && c.fillOpacity == c.opacity * 0.3
    ensures c.centerLat == p.centerLat && c.centerLng == p.centerLng
  {
    var color := SpeciesColor(SpeciesLabel(p.species));
    var opacity := StatusOpacity(p.status);
    CircleStyle(p.centerLat, p.centerLng, p.diameter / 2.0, color, color, opacity, opacity * 0.3, 2)
  }

  /** A patch to be weeded stands out from a weeded one of the same species, in both
      the outline and the fill; a patch without a species is coloured as "Unknown". */
  lemma PatchCircleContrast(p: WeedPatch, q: WeedPatch)
    requires p.status == NeedsWeeding && q.status == HasBeenWeeded
    ensures PatchCircle(p).opacity == 2.0 * PatchCircle(q).opacity
    ensures PatchCircle(p).fillOpacity > PatchCircle(q).fillOpacity
    ensures p.species == "" ==> PatchCircle(p).color == "#3B82F6"
  {
    SpeciesColorOfUnknown();
  }
}
