/** The species list of src/components/map/LayerControls.tsx: the species column of
    every weed patch is counted per species, the counts are listed in ascending order
    of species name, and the toggle-all button is labelled from the visible count.
    The fetch itself is a backend read; its answer is an input. */
module LayerControls {
  import opened Common
  import opened WeedPatchLayer

  /** `patch.species || 'Unknown'` for a column that may be null. */
  function SpeciesKey(species: Option<string>): (k: string)
    ensures k != ""
    ensures species.Some? && species.value != "" ==> k == species.value
    ensures species.None? || species == Some("") ==> k == "Unknown"
  {
    match species
    case None => "Unknown"
    case Some(s) => SpeciesLabel(s)
  }

  /** The key each fetched row is counted under, in fetch order. */
  function Keys(data: seq<Option<string>>): (keys: seq<string>)
    ensures |keys| == |data|
  {
    seq(|data|, i requires 0 <= i < |data| => SpeciesKey(data[i]))
  }

  /** One line of the list. */
  datatype SpeciesCount = SpeciesCount(species: string, count: nat)

  /** Ascending order of names, compared character by character; a proper prefix
      comes first. */
  predicate StrLess(a: string, b: string)
  {
    if |a| == 0 then |b| > 0
    else if |b| == 0 then false
    else if a[0] != b[0] then a[0] < b[0]
    else StrLess(a[1..], b[1..])
  }

  lemma {:induction false} StrLessIrreflexive(a: string)
    ensures !StrLess(a, a)
  {
    if |a| > 0 {
      StrLessIrreflexive(a[1..]);
    }
  }

  /** Two different names are always ordered one way or the other. */
  lemma {:induction false} StrLessTotal(a: string, b: string)
    requires a != b
    ensures StrLess(a, b) || StrLess(b, a)
  {
    if |a| > 0 && |b| > 0 && a[0] == b[0] {
      assert a == [a[0]] + a[1..] && b == [b[0]] + b[1..];
      StrLessTotal(a[1..], b[1..]);
    }
  }

  lemma {:induction false} StrLessTransitive(a: string, b: string, c: string)
    requires StrLess(a, b) && StrLess(b, c)
    ensures StrLess(a, c)
  {
    if |a| > 0 && a[0] == b[0] && b[0] == c[0] {
      StrLessTransitive(a[1..], b[1..], c[1..]);
    }
  }

  /** Every name is strictly before every later one, so no name appears twice. */
  predicate SortedBySpecies(s: seq<SpeciesCount>)
  {
    forall i, j :: 0 <= i < j < |s| ==> StrLess(s[i].species, s[j].species)
  }

  predicate DistinctSpecies(s: seq<SpeciesCount>)
  {
    forall i, j :: 0 <= i < j < |s| ==> s[i].species != s[j].species
  }

  /** Insertion of one line into a sorted list. */
  function Insert(e: SpeciesCount, s: seq<SpeciesCount>): (r: seq<SpeciesCount>)
    ensures multiset(r) == multiset(s) + multiset{e}
    ensures |r| == |s| + 1
  {
    if s == [] then [e]
    else if StrLess(e.species, s[0].species) then [e] + s
    else
      assert s == [s[0]] + s[1..];
      [s[0]] + Insert(e, s[1..])
  }

  lemma {:induction false} InsertSorted(e: SpeciesCount, s: seq<SpeciesCount>)
    requires SortedBySpecies(s)
    requires forall x :: x in s ==> x.species != e.species
    ensures SortedBySpecies(Insert(e, s))
  {
    if s == [] {
    } else if StrLess(e.species, s[0].species) {
      forall j | 0 < j < |s| {
        StrLessTransitive(e.species, s[0].species, s[j].species);
      }
    } else {
      StrLessTotal(e.species, s[0].species);
      InsertSorted(e, s[1..]);
      var rest := Insert(e, s[1..]);
      forall j | 0 <= j < |rest|
        ensures StrLess(s[0].species, rest[j].species)
      {
        assert rest[j] in multiset(s[1..]) + multiset{e};
      }
    }
  }

  /** The `.sort` by species name. */
  function SortBySpecies(xs: seq<SpeciesCount>): (r: seq<SpeciesCount>)
    ensures multiset(r) == multiset(xs)
  {
    if xs == [] then []
    else
      assert xs == [xs[0]] + xs[1..];
      Insert(xs[0], SortBySpecies(xs[1..]))
  }

  lemma {:induction false} SortBySpeciesSorted(xs: seq<SpeciesCount>)
    requires DistinctSpecies(xs)
    ensures SortedBySpecies(SortBySpecies(xs))
  {
    if xs != [] {
      SortBySpeciesSorted(xs[1..]);
      var rest := SortBySpecies(xs[1..]);
      forall x | x in rest
        ensures x.species != xs[0].species
      {
        assert x in multiset(xs[1..]);
      }
      InsertSorted(xs[0], rest);
    }
  }

  /** The lines of a map in a given order of its keys. */
  function Entries(counts: map<string, nat>, order: seq<string>): (r: seq<SpeciesCount>)
    requires forall k :: k in order ==> k in counts
    ensures |r| == |order|
  {
    seq(|order|, i requires 0 <= i < |order| => SpeciesCount(order[i], counts[order[i]]))
  }

  function SumCounts(s: seq<SpeciesCount>): nat
  {
    if s == [] then 0 else s[0].count + SumCounts(s[1..])
  }

  /** Clearing one element of a multiset removes its multiplicity from the size. */
  lemma {:induction false} ClearElement(m: multiset<string>, x: string)
    ensures |m[x := 0]| + m[x] == |m|
    decreases m[x]
  {
    if m[x] > 0 {
      var m2 := m - multiset{x};
      assert m2[x := 0] == m[x := 0];
      ClearElement(m2, x);
    } else {
      assert m[x := 0] == m;
    }
  }

  /** A list that gives each element of a multiset once, with its multiplicity,
      sums to the multiset's size. */
  lemma {:induction false} SumOfMultiplicities(s: seq<SpeciesCount>, m: multiset<string>)
    requires DistinctSpecies(s) && CountsOf(s, m)
    ensures SumCounts(s) == |m|
  {
    if s == [] {
      assert m == multiset{};
    } else {
      var x := s[0].species;
      var m2 := m[x := 0];
      ClearElement(m, x);
      forall e | e in s[1..]
        ensures e.count == m2[e.species] && e.species in m2
      {
        var j :| 0 <= j < |s[1..]| && s[1..][j] == e;
        assert s[j + 1] == e;
      }
      forall k | k in m2
        ensures exists e :: e in s[1..] && e.species == k
      {
        var e :| e in s && e.species == k;
        assert e != s[0];
        var j :| 0 <= j < |s| && s[j] == e;
        assert s[1..][j - 1] == e;
      }
      SumOfMultiplicities(s[1..], m2);
    }
  }

  /** The state of the count after some rows: each key seen is in the map with the
      number of times it was seen, and listed once in the order of first sight. */
  ghost predicate Tally(keys: seq<string>, counts: map<string, nat>, order: seq<string>)
  {
    (forall k :: k in counts <==> k in multiset(keys)) &&
    (forall k :: k in counts ==> counts[k] == multiset(keys)[k]) &&
    (forall k :: k in counts <==> k in order) &&
    (forall a, b :: 0 <= a < b < |order| ==> order[a] != order[b])
  }

  /** Counting row `i` keeps the tally. */
  lemma TallyStep(keys: seq<string>, i: nat, counts: map<string, nat>, order: seq<string>)
    requires i < |keys| && Tally(keys[..i], counts, order)
    ensures var k := keys[i];
            var previous := if k in counts then counts[k] else 0;
            Tally(keys[..i + 1], counts[k := previous + 1], if k in counts then order else order + [k])
  {
    assert keys[..i + 1] == keys[..i] + [keys[i]];
    assert multiset(keys[..i + 1]) == multiset(keys[..i]) + multiset{keys[i]};
  }

  /** A list whose lines give each key of a multiset once, with its multiplicity. */
  ghost predicate CountsOf(s: seq<SpeciesCount>, m: multiset<string>)
  {
    (forall e :: e in s ==> e.count == m[e.species] && e.species in m) &&
    (forall k :: k in m ==> exists e :: e in s && e.species == k)
  }

  lemma EntriesOfTally(keys: seq<string>, counts: map<string, nat>, order: seq<string>)
    requires Tally(keys, counts, order)
    ensures DistinctSpecies(Entries(counts, order))
    ensures CountsOf(Entries(counts, order), multiset(keys))
  {
    var entries := Entries(counts, order);
    forall k | k in multiset(keys)
      ensures exists e :: e in entries && e.species == k
    {
      var j :| 0 <= j < |order| && order[j] == k;
      assert entries[j].species == k;
    }
  }

  /** Reordering the lines keeps what they say. */
  lemma CountsOfPermutation(s: seq<SpeciesCount>, t: seq<SpeciesCount>, m: multiset<string>)
    requires CountsOf(s, m) && multiset(s) == multiset(t)
    ensures CountsOf(t, m)
  {
    forall e | e in t
      ensures e in s
    {
      assert e in multiset(t);
    }
    forall k | k in m
      ensures exists e :: e in t && e.species == k
    {
      var e :| e in s && e.species == k;
      assert e in multiset(s);
    }
  }

  lemma SortedIsDistinct(s: seq<SpeciesCount>)
    requires SortedBySpecies(s)
    ensures DistinctSpecies(s)
  {
    forall i, j | 0 <= i < j < |s|
      ensures s[i].species != s[j].species
    {
      StrLessIrreflexive(s[i].species);
    }
  }

  /** The properties of the sorted list of a finished count. */
  lemma TallyList(keys: seq<string>, counts: map<string, nat>, order: seq<string>)
    requires Tally(keys, counts, order)
    ensures var list := SortBySpecies(Entries(counts, order));
            SortedBySpecies(list) && CountsOf(list, multiset(keys)) && SumCounts(list) == |keys|
  {
    var entries := Entries(counts, order);
    var list := SortBySpecies(entries);
    EntriesOfTally(keys, counts, order);
    SortBySpeciesSorted(entries);
    CountsOfPermutation(entries, list, multiset(keys));
    SortedIsDistinct(list);
    SumOfMultiplicities(list, multiset(keys));
  }

  /** loadAvailableSpecies, its data part: a failed fetch leaves the list empty;
      otherwise each row is counted once under its key, and the list holds each key
      exactly once, with its count, in ascending order of name. */
  method LoadAvailableSpecies(fetched: Option<seq<Option<string>>>) returns (list: seq<SpeciesCount>)
    ensures fetched.None? ==> list == []
    ensures fetched.Some? ==>
              var keys := Keys(fetched.value);
              SortedBySpecies(list) && CountsOf(list, multiset(keys)) &&
              (forall e :: e in list ==> e.count >= 1) &&
              SumCounts(list) == |fetched.value| &&
              (list == [] <==> fetched.value == [])
  {
    if fetched.None? {
      return [];
    }
    var data := fetched.value;
    ghost var keys := Keys(data);
    var counts: map<string, nat> := map[];
    var order: seq<string> := [];
    for i := 0 to |data|
      invariant Tally(keys[..i], counts, order)
    {
      var species := SpeciesKey(data[i]);
      TallyStep(keys, i, counts, order);
      var previous := if species in counts then counts[species] else 0;
      if species !in counts {
        order := order + [species];
      }
      counts := counts[species := previous + 1];
    }
    assert keys[..|data|] == keys;
    list := SortBySpecies(Entries(counts, order));
    TallyList(keys, counts, order);
    if data != [] {
      assert keys[0] in multiset(keys);
    }
  }

  /** The control renders nothing while loading or when no species was found. */
  function Rendered(loading: bool, list: seq<SpeciesCount>): (r: bool)
    ensures r ==> |list| > 0
  {
    !loading && |list| != 0
  }

  /** The toggle-all button's label. */
  function ToggleAllLabel(visibleCount: nat, listed: nat): string
  {
    if visibleCount == listed then "Hide All" else "Show All"
  }

  function SpeciesOf(list: seq<SpeciesCount>): (r: set<string>)
    ensures forall e :: e in list ==> e.species in r
    ensures forall k :: k in r ==> exists e :: e in list && e.species == k
  {
    set e | e in list :: e.species
  }

  lemma {:induction false} SpeciesOfSize(list: seq<SpeciesCount>)
    requires DistinctSpecies(list)
    ensures |SpeciesOf(list)| == |list|
  {
    if list != [] {
      SpeciesOfSize(list[1..]);
      assert list == [list[0]] + list[1..];
      assert SpeciesOf(list) == SpeciesOf(list[1..]) + {list[0].species};
      forall e | e in list[1..]
        ensures e.species != list[0].species
      {
        var j :| 0 <= j < |list[1..]| && list[1..][j] == e;
        assert list[j + 1] == e;
      }
    }
  }

  /** When every visible species is one of the listed ones, the label reads
      "Hide All" exactly when every listed species is visible. */
  lemma HideAllIffEverySpeciesVisible(visible: set<string>, list: seq<SpeciesCount>)
    requires SortedBySpecies(list)
    requires visible <= SpeciesOf(list)
    ensures ToggleAllLabel(|visible|, |list|) == "Hide All" <==> visible == SpeciesOf(list)
  {
    forall i, j | 0 <= i < j < |list|
      ensures list[i].species != list[j].species
    {
      StrLessIrreflexive(list[i].species);
    }
    SpeciesOfSize(list);
    var all := SpeciesOf(list);
    if visible != all {
      assert !(all <= visible);
      var k :| k in all && k !in visible;
      assert all == visible + (all - visible);
      assert k in all - visible;
    }
  }
}
