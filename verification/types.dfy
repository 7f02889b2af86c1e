/** The shared entity shapes, the map constants, the weed species list and the
    species colour of src/types/index.ts. */
module Types {
  import opened Common

  /** A GPS fix; `accuracy` is the radius in metres when the browser reports one. */
  datatype Position = Position(lat: real, lng: real, accuracy: Option<real>)

  datatype Status = NeedsWeeding | HasBeenWeeded

  /** The status as the backend stores it. */
  function StatusName(s: Status): string
  {
    match s
    case NeedsWeeding => "NEEDS_WEEDING"
    case HasBeenWeeded => "HAS_BEEN_WEEDED"
  }

  datatype Role = Editor | Admin

  datatype Profile = Profile(id: string, email: string, fullName: string, role: Role,
                             createdAt: string, updatedAt: string)

  datatype Track = Track(id: string, userId: string, name: string, coordinates: seq<Position>,
                         color: string, createdAt: string, updatedAt: string,
                         profile: Option<Profile>)

  datatype WeedPatch = WeedPatch(id: string, userId: string, centerLat: real, centerLng: real,
                                 diameter: real, status: Status, species: string, color: string,
                                 photoUrl: Option<string>, notes: Option<string>,
                                 createdAt: string, updatedAt: string, profile: Option<Profile>)

  datatype Photo = Photo(id: string, userId: string, trackId: Option<string>,
                         weedPatchId: Option<string>, cloudinaryUrl: string,
                         thumbnailUrl: Option<string>, lat: real, lng: real,
                         createdAt: string, profile: Option<Profile>)

  // ---------------------------------------------------------------------------
  // Constants
  // ---------------------------------------------------------------------------

  const MapZoom: nat := 17
  const MapMinZoom: nat := 16
  const MapMaxZoom: nat := 20

  lemma MapZoomWithinLimits()
    ensures MapMinZoom <= MapZoom <= MapMaxZoom
  {
  }

  const WeedSpecies: seq<string> := [
    "Unknown", "Gorse", "Broom", "Blackberry", "Willow",
    "Pine seedlings", "Ivy", "Buddleja", "Old mans beard", "Pampas grass"
  ]

  lemma WeedSpeciesList()
    ensures |WeedSpecies| == 10 && WeedSpecies[0] == "Unknown"
    ensures forall i, j :: 0 <= i < j < |WeedSpecies| ==> WeedSpecies[i] != WeedSpecies[j]
  {
  }

  // ---------------------------------------------------------------------------
  // Species colour
  // ---------------------------------------------------------------------------

  const Two31: int := 0x8000_0000
  const Two32: int := 0x1_0000_0000

  /** ECMA-262 ToInt32 on an integral Number: the 32-bit two's-complement wrap-around. */
  function ToInt32(x: int): (r: int)
    ensures -Two31 <= r < Two31
    ensures (x - r) % Two32 == 0
    ensures -Two31 <= x < Two31 ==> r == x
  {
    (x + Two31) % Two32 - Two31
  }

  /** One round of `hash = c + ((hash << 5) - hash)`: `<<` converts its left operand
      with ToInt32 and wraps its result again, while `- hash` and `+ c` act on the
      unwrapped Number. */
  function HashStep(hash: int, c: char): int
  {
    c as int + (ToInt32(ToInt32(hash) * 32) - hash)
  }

  /** The hash after folding every character of `s`, starting from 0. */
  function Hash(s: string): int
    decreases |s|
  {
    if s == [] then 0 else HashStep(Hash(s[..|s| - 1]), s[|s| - 1])
  }

  function Abs(x: int): nat
  {
    if x < 0 then -x else x
  }

  /** The hue, `Math.abs(hash) % 360`. */
  function Hue(species: string): (h: nat)
    ensures h < 360
  {
    Abs(Hash(species)) % 360
  }

  const UnknownColor: string := "#3B82F6"

  function HslColor(hue: nat): string
  {
    "hsl(" + Decimal(hue) + ", 65%, 45%)"
  }

  /** getSpeciesColor: the fixed blue for "Unknown", a hashed hue for anything else. */
  function SpeciesColor(species: string): string
  {
    if species == "Unknown" then UnknownColor else HslColor(Hue(species))
  }

  /** The loop of getSpeciesColor, computing the same colour one character at a time. */
  method GetSpeciesColor(species: string) returns (color: string)
    ensures color == SpeciesColor(species)
  {
    if species == "Unknown" {
      return UnknownColor;
    }
    var hash := 0;
    var i := 0;
    while i < |species|
      invariant 0 <= i <= |species|
      invariant hash == Hash(species[..i])
    {
      assert species[..i + 1][..i] == species[..i];
      hash := species[i] as int + (ToInt32(ToInt32(hash) * 32) - hash);
      i := i + 1;
    }
    assert species[..|species|] == species;
    var hue := Abs(hash) % 360;
    color := "hsl(" + Decimal(hue) + ", 65%, 45%)";
  }

  lemma SpeciesColorOfUnknown()
    ensures SpeciesColor("Unknown") == "#3B82F6"
  {
  }

  /** Every other species gets `hsl(H, 65%, 45%)` with H a decimal hue in [0, 360). */
  lemma SpeciesColorShape(species: string)
    requires species != "Unknown"
    ensures exists h: nat :: h < 360 && SpeciesColor(species) == "hsl(" + Decimal(h) + ", 65%, 45%)"
  {
    var h := Hue(species);
    assert SpeciesColor(species) == "hsl(" + Decimal(h) + ", 65%, 45%)";
  }

  /** The hue can be read back out of the colour text. */
  lemma HueReadBack(species: string)
    requires species != "Unknown"
    ensures var c := SpeciesColor(species);
            var digits := c[4..|c| - 11];
            (forall i :: 0 <= i < |digits| ==> IsDigit(digits[i], 10)) &&
            ParseBase(digits, 10) == Hue(species)
  {
    var d := Decimal(Hue(species));
    var c := SpeciesColor(species);
    assert c == "hsl(" + d + ", 65%, 45%)";
    assert c[4..|c| - 11] == d;
    ParseToBase(Hue(species), 10);
  }

  lemma SpeciesColorOfEmpty()
    ensures SpeciesColor("") == "hsl(0, 65%, 45%)"
  {
    assert Hash("") == 0 && Hue("") == 0;
    assert Decimal(0) == "0";
  }

  const HashStepBound: int := Two31 + 0x11_0000

  /** The hash grows by at most 2^31 + 0x110000 per character. */
  lemma {:induction false} HashBound(s: string)
    ensures Abs(Hash(s)) <= |s| * HashStepBound
    decreases |s|
  {
    if s != [] {
      var p := s[..|s| - 1];
      HashBound(p);
      var h := Hash(p);
      var w := ToInt32(ToInt32(h) * 32);
      assert Hash(s) == s[|s| - 1] as int + (w - h);
      assert |s| * HashStepBound == |p| * HashStepBound + HashStepBound;
    }
  }

  /** For strings shorter than 2^21 characters the hash stays below 2^53 in size, so
      the double-precision arithmetic of the source computes it exactly. */
  lemma HashIsExactInDoubles(s: string)
    requires |s| < 0x20_0000
    ensures Abs(Hash(s)) < 0x20_0000_0000_0000
  {
    HashBound(s);
  }
}
