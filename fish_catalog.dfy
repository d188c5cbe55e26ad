/** The species catalogue the fish-detail screen reads: a decoder that cleans
    HTML out of every text field, a memberwise initialiser, and a manager
    that loads a fixed list of common spearfishing species. */
module FishCatalog {
  import opened Wrappers
  import opened Text
  import opened Json

  // ---------------------------------------------------------------------
  // cleanHTML: remove every match of `<[^>]+>`, then trim
  // ---------------------------------------------------------------------

  /** The first index of `c` in `s`. */
  function FirstIndex(s: string, c: char): (k: nat)
    requires c in s
    ensures k < |s| && s[k] == c && c !in s[..k]
  {
    if s[0] == c then 0 else 1 + FirstIndex(s[1..], c)
  }

  /** Whether the pattern `<[^>]+>` matches at the start of `s`: a `<`, at
      least one character other than `>`, and then a `>`. */
  predicate TagAtStart(s: string) {
    |s| >= 2 && s[0] == '<' && s[1] != '>' && '>' in s[2..]
  }

  /** Where a tag matched at the start of `s` ends: just past its first `>`. */
  function TagEnd(s: string): (j: nat)
    requires TagAtStart(s)
    ensures 3 <= j <= |s| && s[j - 1] == '>' && '>' !in s[1..j - 1]
  {
    var j := 3 + FirstIndex(s[2..], '>');
    assert s[1..j - 1] == [s[1]] + s[2..][..j - 3];
    j
  }

  /** A left-to-right, non-overlapping replacement of `<[^>]+>` by nothing:
      at each position either a tag starts there and is dropped whole, or the
      character is kept and the scan moves on by one. */
  function StripTags(s: string): string
    decreases |s|
  {
    if s == [] then []
    else if TagAtStart(s) then StripTags(s[TagEnd(s)..])
    else [s[0]] + StripTags(s[1..])
  }

  /** No position of `s` starts a match of `<[^>]+>`: every `<` is followed
      directly by `>` or by no `>` at all. */
  predicate TagFree(s: string) {
    forall i :: 0 <= i < |s| && s[i] == '<' ==> (i + 1 < |s| && s[i + 1] == '>') || '>' !in s[i + 1..]
  }

  function CleanHTML(s: string): string {
    Trim(StripTags(s), WhitespacesAndNewlines)
  }

  /** What `cleanHTML` promises: no tag left, nothing to trim at either end. */
  predicate IsClean(s: string) {
    && TagFree(s)
    && (s != [] ==> !WhitespacesAndNewlines.Has(s[0]) && !WhitespacesAndNewlines.Has(s[|s| - 1]))
  }

  /** Stripping removes characters and never adds one. */
  lemma {:induction false} StripTagsKeepsOnlyInput(s: string, c: char)
    requires c !in s
    ensures c !in StripTags(s)
    decreases |s|
  {
    if s == [] {
    } else if TagAtStart(s) {
      var j := TagEnd(s);
      assert forall k :: 0 <= k < |s[j..]| ==> s[j..][k] == s[j + k];
      StripTagsKeepsOnlyInput(s[j..], c);
    } else {
      assert forall k :: 0 <= k < |s[1..]| ==> s[1..][k] == s[1 + k];
      StripTagsKeepsOnlyInput(s[1..], c);
    }
  }

  /** A string that starts with anything but `<` keeps its first character. */
  lemma StripTagsKeepsFirst(s: string)
    requires s != [] && s[0] != '<'
    ensures StripTags(s) != [] && StripTags(s)[0] == s[0]
  {
  }

  /** A slice of a tag-free string is tag-free. */
  lemma TagFreeSlice(s: string, a: nat, b: nat)
    requires TagFree(s) && a <= b <= |s|
    ensures TagFree(s[a..b])
  {
    var t := s[a..b];
    forall i | 0 <= i < |t| && t[i] == '<'
      ensures (i + 1 < |t| && t[i + 1] == '>') || '>' !in t[i + 1..]
    {
      assert s[a + i] == '<';
      if !(a + i + 1 < |s| && s[a + i + 1] == '>') {
        assert '>' !in s[a + i + 1..];
        assert t[i + 1..] == s[a + i + 1..][..b - (a + i + 1)];
      }
    }
  }

  /** Putting a character that no tag can start in front of a tag-free string
      keeps it tag-free. */
  lemma TagFreeCons(c: char, r: string)
    requires TagFree(r)
    requires c == '<' ==> (r != [] && r[0] == '>') || '>' !in r
    ensures TagFree([c] + r)
  {
    var t := [c] + r;
    forall i | 0 <= i < |t| && t[i] == '<'
      ensures (i + 1 < |t| && t[i + 1] == '>') || '>' !in t[i + 1..]
    {
      if i == 0 {
        assert t[1..] == r;
      } else {
        assert r[i - 1] == '<';
        assert t[i + 1..] == r[i..];
      }
    }
  }

  /** No match of `<[^>]+>` survives the replacement. */
  lemma {:induction false} StripTagsTagFree(s: string)
    ensures TagFree(StripTags(s))
    decreases |s|
  {
    if s == [] {
    } else if TagAtStart(s) {
      StripTagsTagFree(s[TagEnd(s)..]);
    } else {
      var r := StripTags(s[1..]);
      StripTagsTagFree(s[1..]);
      if s[0] == '<' && |s| >= 2 {
        if s[1] == '>' {
          StripTagsKeepsFirst(s[1..]);
        } else {
          assert '>' !in s[2..];
          assert s[1..] == [s[1]] + s[2..];
          StripTagsKeepsOnlyInput(s[1..], '>');
        }
      }
      TagFreeCons(s[0], r);
    }
  }

  /** A tag-free string is left alone, so stripping is idempotent. */
  lemma {:induction false} StripTagsOfTagFree(s: string)
    requires TagFree(s)
    ensures StripTags(s) == s
    decreases |s|
  {
    if s != [] {
      if |s| >= 2 {
        assert s[1..] == [s[1]] + s[2..];
      }
      assert !TagAtStart(s);
      TagFreeSlice(s, 1, |s|);
      StripTagsOfTagFree(s[1..]);
    }
  }

  /** `cleanHTML` leaves no tag and no leading or trailing whitespace or
      newline. */
  lemma CleanHTMLIsClean(s: string)
    ensures IsClean(CleanHTML(s))
  {
    var t := StripTags(s);
    StripTagsTagFree(s);
    var a := LeadingCount(t, WhitespacesAndNewlines);
    var b := |t| - TrailingCount(t[a..], WhitespacesAndNewlines);
    TagFreeSlice(t, a, b);
    assert CleanHTML(s) == t[a..b];
  }

  /** Cleaning what is already clean changes nothing. */
  lemma CleanHTMLIdempotent(s: string)
    ensures CleanHTML(CleanHTML(s)) == CleanHTML(s)
  {
    CleanHTMLIsClean(s);
    StripTagsOfTagFree(CleanHTML(s));
    TrimIdempotent(StripTags(s), WhitespacesAndNewlines);
  }

  // ---------------------------------------------------------------------
  // FishSpecies
  // ---------------------------------------------------------------------

  /** One species; `id = UUID()` only gives each instance an identity for
      list rendering and is not modelled. */
  datatype FishSpecies = FishSpecies(
    speciesName: string,
    scientificName: Option<string>,
    habitat: Option<string>,
    location: Option<string>,
    speciesIllustrationPhoto: Option<string>,
    imageGallery: Option<seq<string>>,
    population: Option<string>,
    fishingRate: Option<string>)

  const SpeciesNameKey := "Species Name"
  const ScientificNameKey := "Scientific Name"
  const HabitatKey := "Habitat"
  const LocationKey := "Location"
  const PhotoKey := "Species Illustration Photo"
  const GalleryKey := "Image Gallery"
  const PopulationKey := "Population"
  const FishingRateKey := "Fishing Rate"
  const PhotoSourceKey := "src"

  function CleanOptional(raw: Option<string>): Option<string> {
    match raw
    case None => None
    case Some(s) => Some(CleanHTML(s))
  }

  /** The photo URL is the dictionary's "src" entry, when both exist. */
  function PhotoSource(dict: Option<map<string, string>>): Option<string> {
    if dict.Some? && PhotoSourceKey in dict.value then Some(dict.value[PhotoSourceKey]) else None
  }

  /** `init(from:)`: each field is read in declaration order, so the first
      failing read is the error reported. */
  function DecodeSpecies(json: Json): Result<FishSpecies, DecodeError> {
    if !json.JObject? then Err(NotAnObject)
    else
      var fields := json.fields;
      var rawName :- DecodeString(fields, SpeciesNameKey);
      var scientific :- DecodeStringIfPresent(fields, ScientificNameKey);
      var habitat :- DecodeStringIfPresent(fields, HabitatKey);
      var location :- DecodeStringIfPresent(fields, LocationKey);
      var photo :- DecodeStringMapIfPresent(fields, PhotoKey);
      var gallery :- DecodeStringArrayIfPresent(fields, GalleryKey);
      var population :- DecodeStringIfPresent(fields, PopulationKey);
      var fishingRate :- DecodeStringIfPresent(fields, FishingRateKey);
      Ok(FishSpecies(CleanHTML(rawName), CleanOptional(scientific), CleanOptional(habitat),
                     CleanOptional(location), PhotoSource(photo), gallery,
                     CleanOptional(population), CleanOptional(fishingRate)))
  }

  /** Whether an optional text field can be read: absent, null or a string. */
  predicate OptionalText(fields: map<string, Json>, key: string) {
    key !in fields || fields[key].JNull? || fields[key].JString?
  }

  /** The raw value of a readable optional text field. */
  function RawText(fields: map<string, Json>, key: string): Option<string> {
    if key in fields && fields[key].JString? then Some(fields[key].s) else None
  }

  /** Decoding succeeds exactly when the name is a string and every other field
      is absent, null or of its declared type. */
  lemma DecodeSucceedsIff(fields: map<string, Json>)
    ensures DecodeSpecies(JObject(fields)).Ok? <==>
              && SpeciesNameKey in fields && fields[SpeciesNameKey].JString?
              && OptionalText(fields, ScientificNameKey)
              && OptionalText(fields, HabitatKey)
              && OptionalText(fields, LocationKey)
              && (PhotoKey !in fields || fields[PhotoKey].JNull? ||
                  (fields[PhotoKey].JObject? && AllStringValues(fields[PhotoKey].fields)))
              && (GalleryKey !in fields || fields[GalleryKey].JNull? ||
                  (fields[GalleryKey].JArray? && AllStrings(fields[GalleryKey].items)))
              && OptionalText(fields, PopulationKey)
              && OptionalText(fields, FishingRateKey)
  {
  }

  /** Without "Species Name" decoding fails with `keyNotFound`, whatever else
      the object holds; otherwise the decoded name is the cleaned raw value. */
  lemma DecodeNeedsSpeciesName(fields: map<string, Json>)
    ensures SpeciesNameKey !in fields ==> DecodeSpecies(JObject(fields)) == Err(KeyNotFound(SpeciesNameKey))
    ensures DecodeSpecies(JObject(fields)).Ok? ==>
              DecodeSpecies(JObject(fields)).value.speciesName == CleanHTML(fields[SpeciesNameKey].s)
  {
  }

  /** The decoded value once every read has succeeded. */
  lemma DecodedValue(fields: map<string, Json>)
    requires DecodeSpecies(JObject(fields)).Ok?
    ensures DecodeSpecies(JObject(fields)) ==
      Ok(FishSpecies(CleanHTML(fields[SpeciesNameKey].s),
                     CleanOptional(RawText(fields, ScientificNameKey)),
                     CleanOptional(RawText(fields, HabitatKey)),
                     CleanOptional(RawText(fields, LocationKey)),
                     PhotoSource(DecodeStringMapIfPresent(fields, PhotoKey).value),
                     DecodeStringArrayIfPresent(fields, GalleryKey).value,
                     CleanOptional(RawText(fields, PopulationKey)),
                     CleanOptional(RawText(fields, FishingRateKey))))
  {
    DecodeSucceedsIff(fields);
  }

  /** Every optional text field is nil when absent or null and the cleaned raw
      value when present; the photo is the "src" entry and the gallery is kept
      as given. */
  lemma DecodedFields(fields: map<string, Json>)
    requires DecodeSpecies(JObject(fields)).Ok?
    ensures var f := DecodeSpecies(JObject(fields)).value;
      && f.scientificName == CleanOptional(RawText(fields, ScientificNameKey))
      && f.habitat == CleanOptional(RawText(fields, HabitatKey))
      && f.location == CleanOptional(RawText(fields, LocationKey))
      && f.population == CleanOptional(RawText(fields, PopulationKey))
      && f.fishingRate == CleanOptional(RawText(fields, FishingRateKey))
      && (f.speciesIllustrationPhoto.Some? <==>
            PhotoKey in fields && fields[PhotoKey].JObject? && PhotoSourceKey in fields[PhotoKey].fields)
      && (f.speciesIllustrationPhoto.Some? ==>
            JString(f.speciesIllustrationPhoto.value) == fields[PhotoKey].fields[PhotoSourceKey])
      && (f.imageGallery.Some? <==> GalleryKey in fields && fields[GalleryKey].JArray?)
      && (f.imageGallery.Some? ==>
            forall i :: 0 <= i < |f.imageGallery.value| ==>
              JString(f.imageGallery.value[i]) == fields[GalleryKey].items[i])
  {
    DecodedValue(fields);
  }

  lemma CleanOptionalIsClean(raw: Option<string>)
    ensures CleanOptional(raw).Some? ==> IsClean(CleanOptional(raw).value)
  {
    if raw.Some? {
      CleanHTMLIsClean(raw.value);
    }
  }

  /** Every text field the decoder cleans is clean; the gallery is not
      cleaned. */
  lemma DecodedTextIsClean(json: Json)
    requires DecodeSpecies(json).Ok?
    ensures var f := DecodeSpecies(json).value;
      && IsClean(f.speciesName)
      && (f.scientificName.Some? ==> IsClean(f.scientificName.value))
      && (f.habitat.Some? ==> IsClean(f.habitat.value))
      && (f.location.Some? ==> IsClean(f.location.value))
      && (f.population.Some? ==> IsClean(f.population.value))
      && (f.fishingRate.Some? ==> IsClean(f.fishingRate.value))
  {
    var fields := json.fields;
    DecodedValue(fields);
    CleanHTMLIsClean(fields[SpeciesNameKey].s);
    CleanOptionalIsClean(RawText(fields, ScientificNameKey));
    CleanOptionalIsClean(RawText(fields, HabitatKey));
    CleanOptionalIsClean(RawText(fields, LocationKey));
    CleanOptionalIsClean(RawText(fields, PopulationKey));
    CleanOptionalIsClean(RawText(fields, FishingRateKey));
  }

  /** The memberwise initialiser, with every optional field defaulting to nil. */
  function NewSpecies(speciesName: string, scientificName: Option<string> := None, habitat: Option<string> := None,
                      location: Option<string> := None, speciesIllustrationPhoto: Option<string> := None,
                      imageGallery: Option<seq<string>> := None, population: Option<string> := None,
                      fishingRate: Option<string> := None): FishSpecies
  {
    FishSpecies(speciesName, scientificName, habitat, location, speciesIllustrationPhoto, imageGallery,
                population, fishingRate)
  }

  /** Unlike the decoder, the memberwise initialiser stores a name as given:
      a name with leading whitespace survives it but not decoding. */
  lemma InitDoesNotClean(name: string)
    requires name != [] && WhitespacesAndNewlines.Has(name[0])
    ensures NewSpecies(name).speciesName == name
    ensures NewSpecies(name).scientificName == None && NewSpecies(name).imageGallery == None
    ensures DecodeSpecies(JObject(map[SpeciesNameKey := JString(name)])).Ok?
    ensures DecodeSpecies(JObject(map[SpeciesNameKey := JString(name)])).value.speciesName != name
  {
    CleanHTMLIsClean(name);
  }

  // ---------------------------------------------------------------------
  // FishSpeciesManager
  // ---------------------------------------------------------------------

  /** A species from the static list, which sets the four text fields it
      names and leaves photo and gallery nil. */
  function Common(name: string, scientific: string, habitat: string, location: string,
                  population: string, fishingRate: string): FishSpecies
  {
    NewSpecies(name, scientificName := Some(scientific), habitat := Some(habitat), location := Some(location),
               population := Some(population), fishingRate := Some(fishingRate))
  }

  /** The fixed list `fetchFishSpecies` loads, in source order. */
  function CommonSpecies(): (r: seq<FishSpecies>)
    ensures |r| == 10
  {
    [ Common("Mahi Mahi", "Coryphaena hippurus", "Pelagic", "Tropical and subtropical waters", "Stable", "Sustainable"),
      Common("Red Snapper", "Lutjanus campechanus", "Reef", "Western Atlantic", "Rebuilding", "Managed"),
      Common("Grouper", "Epinephelus sp.", "Reef", "Tropical and subtropical waters", "Varies by species", "Managed"),
      Common("Yellowtail Snapper", "Ocyurus chrysurus", "Reef", "Western Atlantic", "Stable", "Sustainable"),
      Common("Cobia", "Rachycentron canadum", "Pelagic", "Worldwide tropical waters", "Stable", "Sustainable"),
      Common("Wahoo", "Acanthocybium solandri", "Pelagic", "Tropical and subtropical waters", "Stable", "Sustainable"),
      Common("Hogfish", "Lachnolaimus maximus", "Reef", "Western Atlantic", "Stable", "Managed"),
      Common("African Pompano", "Alectis ciliaris", "Pelagic", "Tropical waters", "Stable", "Sustainable"),
      Common("Amberjack", "Seriola dumerili", "Reef/Pelagic", "Worldwide tropical waters", "Stable", "Managed"),
      Common("Barracuda", "Sphyraena barracuda", "Reef/Pelagic", "Tropical waters", "Stable", "Sustainable") ]
  }

  /** The static list runs from "Mahi Mahi", then "Red Snapper", to
      "Barracuda"; every entry has
      its six text fields and no photo or gallery, and no two entries share a
      name. */
  lemma CommonSpeciesFacts()
    ensures var r := CommonSpecies();
      && r[0].speciesName == "Mahi Mahi" && r[1].speciesName == "Red Snapper"
      && r[9].speciesName == "Barracuda"
      && (forall i :: 0 <= i < |r| ==>
            && r[i].speciesIllustrationPhoto.None? && r[i].imageGallery.None?
            && r[i].scientificName.Some? && r[i].habitat.Some? && r[i].location.Some?
            && r[i].population.Some? && r[i].fishingRate.Some?)
      && (forall i, j :: 0 <= i < j < |r| ==> r[i].speciesName != r[j].speciesName)
  {
  }

  /** The catalogue's manager; its URLSession is configured but never used. */
  class FishSpeciesManager {
    var species: seq<FishSpecies>

    constructor()
      ensures species == []
    {
      species := [];
    }

    /** Replaces `species` with the static list; it cannot fail. */
    method FetchFishSpecies()
      modifies this
      ensures species == CommonSpecies()
    {
      species := CommonSpecies();
    }
  }
}
