/** The nested app's species model: a plain `Codable` round trip under six
    coding keys, and a manager that fetches the list over HTTP. */
module FishCodec {
  import opened Wrappers
  import opened Json

  /** One species; `id = UUID()` is an identity for list rendering only and is
      not modelled. */
  datatype FishSpecies = FishSpecies(
    speciesName: string,
    scientificName: Option<string>,
    habitat: Option<string>,
    location: Option<string>,
    population: Option<string>,
    fishingRate: Option<string>)

  datatype CodingKey = SpeciesName | ScientificName | Habitat | Location | Population | FishingRate

  /** The JSON key each property is stored under. */
  function RawValue(k: CodingKey): string {
    match k
    case SpeciesName => "Species Name"
    case ScientificName => "Scientific Name"
    case Habitat => "Habitat"
    case Location => "Location"
    case Population => "Population"
    case FishingRate => "Fishing Rate"
  }

  /** No two properties share a JSON key, so each key reads back the property
      that wrote it. */
  lemma RawValueInjective(j: CodingKey, k: CodingKey)
    ensures RawValue(j) == RawValue(k) <==> j == k
  {
    if j != k {
      assert RawValue(j)[0] != RawValue(k)[0] || RawValue(j)[1] != RawValue(k)[1] || |RawValue(j)| != |RawValue(k)|;
    }
  }

  /** The keys `encode(to:)` writes: the name always, each optional only when
      it is non-nil. */
  function EncodedKeys(f: FishSpecies): set<string> {
    {RawValue(SpeciesName)}
    + (if f.scientificName.Some? then {RawValue(ScientificName)} else {})
    + (if f.habitat.Some? then {RawValue(Habitat)} else {})
    + (if f.location.Some? then {RawValue(Location)} else {})
    + (if f.population.Some? then {RawValue(Population)} else {})
    + (if f.fishingRate.Some? then {RawValue(FishingRate)} else {})
  }

  /** `encodeIfPresent`: a nil value leaves the container as it was. */
  function PutIfPresent(fields: map<string, Json>, key: CodingKey, value: Option<string>): map<string, Json> {
    if value.Some? then fields[RawValue(key) := JString(value.value)] else fields
  }

  /** `encode(to:)`. */
  function Encode(f: FishSpecies): (r: Json)
    ensures r.JObject?
  {
    var fields := map[RawValue(SpeciesName) := JString(f.speciesName)];
    var fields := PutIfPresent(fields, ScientificName, f.scientificName);
    var fields := PutIfPresent(fields, Habitat, f.habitat);
    var fields := PutIfPresent(fields, Location, f.location);
    var fields := PutIfPresent(fields, Population, f.population);
    JObject(PutIfPresent(fields, FishingRate, f.fishingRate))
  }

  /** The encoder writes the name and exactly the non-nil optionals. */
  lemma EncodedKeySet(f: FishSpecies)
    ensures Encode(f).fields.Keys == EncodedKeys(f)
  {
    var m0 := map[RawValue(SpeciesName) := JString(f.speciesName)];
    var m1 := PutIfPresent(m0, ScientificName, f.scientificName);
    var m2 := PutIfPresent(m1, Habitat, f.habitat);
    var m3 := PutIfPresent(m2, Location, f.location);
    var m4 := PutIfPresent(m3, Population, f.population);
    var m5 := PutIfPresent(m4, FishingRate, f.fishingRate);
    assert Encode(f).fields == m5;
  }

  /** The name is written as a JSON string under its key. */
  lemma EncodedName(f: FishSpecies)
    ensures Encode(f).fields[RawValue(SpeciesName)] == JString(f.speciesName)
  {
    var m0 := map[RawValue(SpeciesName) := JString(f.speciesName)];
    var m1 := PutIfPresent(m0, ScientificName, f.scientificName);
    var m2 := PutIfPresent(m1, Habitat, f.habitat);
    var m3 := PutIfPresent(m2, Location, f.location);
    var m4 := PutIfPresent(m3, Population, f.population);
    var m5 := PutIfPresent(m4, FishingRate, f.fishingRate);
    assert Encode(f).fields == m5;
  }

  /** Each non-nil optional is written as a JSON string under its own key. */
  lemma EncodedOptionals(f: FishSpecies)
    ensures var m := Encode(f).fields;
      && (f.scientificName.Some? ==> m[RawValue(ScientificName)] == JString(f.scientificName.value))
      && (f.habitat.Some? ==> m[RawValue(Habitat)] == JString(f.habitat.value))
      && (f.location.Some? ==> m[RawValue(Location)] == JString(f.location.value))
      && (f.population.Some? ==> m[RawValue(Population)] == JString(f.population.value))
      && (f.fishingRate.Some? ==> m[RawValue(FishingRate)] == JString(f.fishingRate.value))
  {
    var m0 := map[RawValue(SpeciesName) := JString(f.speciesName)];
    var m1 := PutIfPresent(m0, ScientificName, f.scientificName);
    var m2 := PutIfPresent(m1, Habitat, f.habitat);
    var m3 := PutIfPresent(m2, Location, f.location);
    var m4 := PutIfPresent(m3, Population, f.population);
    var m5 := PutIfPresent(m4, FishingRate, f.fishingRate);
    assert Encode(f).fields == m5;
  }

  /** `init(from:)`: the name is required, the rest are read if present. */
  function Decode(json: Json): (r: Result<FishSpecies, DecodeError>)
    ensures json.JObject? && RawValue(SpeciesName) !in json.fields ==> r == Err(KeyNotFound(RawValue(SpeciesName)))
    ensures r.Ok? ==> json.JObject? && JString(r.value.speciesName) == json.fields[RawValue(SpeciesName)]
  {
    if !json.JObject? then Err(NotAnObject)
    else
      var fields := json.fields;
      var name :- DecodeString(fields, RawValue(SpeciesName));
      var scientific :- DecodeStringIfPresent(fields, RawValue(ScientificName));
      var habitat :- DecodeStringIfPresent(fields, RawValue(Habitat));
      var location :- DecodeStringIfPresent(fields, RawValue(Location));
      var population :- DecodeStringIfPresent(fields, RawValue(Population));
      var fishingRate :- DecodeStringIfPresent(fields, RawValue(FishingRate));
      Ok(FishSpecies(name, scientific, habitat, location, population, fishingRate))
  }

  /** A present optional key decodes to its string, an absent one to nil. */
  lemma DecodeOptionalFields(fields: map<string, Json>)
    requires Decode(JObject(fields)).Ok?
    ensures var f := Decode(JObject(fields)).value;
      && (f.scientificName.None? <==> RawValue(ScientificName) !in fields || fields[RawValue(ScientificName)].JNull?)
      && (f.habitat.None? <==> RawValue(Habitat) !in fields || fields[RawValue(Habitat)].JNull?)
      && (f.location.None? <==> RawValue(Location) !in fields || fields[RawValue(Location)].JNull?)
      && (f.population.None? <==> RawValue(Population) !in fields || fields[RawValue(Population)].JNull?)
      && (f.fishingRate.None? <==> RawValue(FishingRate) !in fields || fields[RawValue(FishingRate)].JNull?)
  {
  }

  /** Decoding what was encoded gives back all six fields. */
  lemma RoundTrip(f: FishSpecies)
    ensures Decode(Encode(f)) == Ok(f)
  {
    EncodedKeySet(f);
    EncodedName(f);
    EncodedOptionals(f);
    var m := Encode(f).fields;
    assert DecodeString(m, RawValue(SpeciesName)) == Ok(f.speciesName);
    assert DecodeStringIfPresent(m, RawValue(ScientificName)) == Ok(f.scientificName);
    assert DecodeStringIfPresent(m, RawValue(Habitat)) == Ok(f.habitat);
    assert DecodeStringIfPresent(m, RawValue(Location)) == Ok(f.location);
    assert DecodeStringIfPresent(m, RawValue(Population)) == Ok(f.population);
    assert DecodeStringIfPresent(m, RawValue(FishingRate)) == Ok(f.fishingRate);
  }

  /** Decoding `[FishSpecies]`: the payload must be an array, and the first
      element that fails to decode fails the whole list. */
  function DecodeList(json: Json): Result<seq<FishSpecies>, DecodeError> {
    if json.JArray? then DecodeItems(json.items) else Err(NotAnArray)
  }

  function DecodeItems(items: seq<Json>): (r: Result<seq<FishSpecies>, DecodeError>)
    ensures r.Ok? ==> |r.value| == |items| && forall i :: 0 <= i < |items| ==> Decode(items[i]) == Ok(r.value[i])
    ensures r.Err? ==> exists i :: 0 <= i < |items| && Decode(items[i]) == Err(r.error)
  {
    if items == [] then Ok([])
    else
      var head :- Decode(items[0]);
      var tail :- DecodeItems(items[1..]);
      Ok([head] + tail)
  }

  function EncodeList(species: seq<FishSpecies>): (r: seq<Json>)
    ensures |r| == |species| && forall i :: 0 <= i < |species| ==> r[i] == Encode(species[i])
  {
    seq(|species|, i requires 0 <= i < |species| => Encode(species[i]))
  }

  /** The list round trip, element by element. */
  lemma {:induction false} ListRoundTrip(species: seq<FishSpecies>)
    ensures DecodeList(JArray(EncodeList(species))) == Ok(species)
    decreases |species|
  {
    if species != [] {
      var items := EncodeList(species);
      RoundTrip(species[0]);
      ListRoundTrip(species[1..]);
      assert items[1..] == EncodeList(species[1..]);
      assert DecodeItems(items[1..]) == Ok(species[1..]);
      assert Decode(items[0]) == Ok(species[0]);
      assert DecodeItems(items) == Ok([species[0]] + species[1..]);
      assert [species[0]] + species[1..] == species;
    }
  }

  // ---------------------------------------------------------------------
  // FishSpeciesManager.fetchFishSpecies
  // ---------------------------------------------------------------------

  /** The response `URLSession` hands back, which may or may not be HTTP. */
  datatype UrlResponse = HttpResponse(statusCode: int) | OtherResponse

  /** What the one network call returns: a body (None when it is not JSON)
      and a response, or a transport error. */
  datatype Transfer =
    | Delivered(body: Option<Json>, response: UrlResponse)
    | Failed(message: string)

  datatype FetchError = Transport(message: string) | BadServerResponse | Decoding(error: DecodeError)

  /** What `fetchFishSpecies` produces from the transfer, in the order its
      guards run: transport, status code, then JSON decoding. */
  function FetchResult(t: Transfer): Result<seq<FishSpecies>, FetchError> {
    match t
    case Failed(message) => Err(Transport(message))
    case Delivered(body, response) =>
      if !(response.HttpResponse? && response.statusCode == 200) then Err(BadServerResponse)
      else if body.None? then Err(Decoding(DataCorrupted))
      else match DecodeList(body.value)
        case Ok(species) => Ok(species)
        case Err(e) => Err(Decoding(e))
  }

  /** Anything but an HTTP 200 is rejected before the body is looked at. */
  lemma NonOkStatusRejected(body: Option<Json>, response: UrlResponse)
    requires !(response.HttpResponse? && response.statusCode == 200)
    ensures FetchResult(Delivered(body, response)) == Err(BadServerResponse)
  {
  }

  /** A 200 carrying an encoded list yields exactly that list. */
  lemma FetchReadsEncodedList(species: seq<FishSpecies>)
    ensures FetchResult(Delivered(Some(JArray(EncodeList(species))), HttpResponse(200))) == Ok(species)
  {
    ListRoundTrip(species);
  }

  class FishSpeciesManager {
    var species: seq<FishSpecies>

    constructor()
      ensures species == []
    {
      species := [];
    }

    /** Replaces `species` wholesale on success; on any thrown error the list
        is left as it was. */
    method FetchFishSpecies(transfer: Transfer) returns (outcome: Outcome<FetchError>)
      modifies this
      ensures FetchResult(transfer).Ok? ==> outcome == Pass && species == FetchResult(transfer).value
      ensures FetchResult(transfer).Err? ==> outcome == Fail(FetchResult(transfer).error) && species == old(species)
    {
      if transfer.Failed? {
        return Fail(Transport(transfer.message));
      }
      var response := transfer.response;
      if !(response.HttpResponse? && response.statusCode == 200) {
        return Fail(BadServerResponse);
      }
      if transfer.body.None? {
        return Fail(Decoding(DataCorrupted));
      }
      var decoded := DecodeList(transfer.body.value);
      if decoded.Err? {
        return Fail(Decoding(decoded.error));
      }
      species := decoded.value;
      outcome := Pass;
    }
  }
}
