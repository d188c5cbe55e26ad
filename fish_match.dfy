/** The fish-detail screen: it loads the catalogue and picks the first
    species whose name loosely matches the name it was opened with. */
module FishMatch {
  import opened Wrappers
  import opened Text
  import opened Sequences
  import FishCatalog

  type FishSpecies = FishCatalog.FishSpecies

  /** A name as the screen compares it: lower-cased, then trimmed of spaces
      and tabs (not newlines). */
  function Normalized(s: string): string {
    Trim(Lowercased(s), Whitespaces)
  }

  /** The closure passed to `first`: equal, or either normalised name contains
      the other. */
  predicate Matches(speciesName: string, search: string) {
    var a := Normalized(speciesName);
    var b := Normalized(search);
    a == b || Contains(a, b) || Contains(b, a)
  }

  /** Swapping the two names does not change the verdict. */
  lemma MatchesSymmetric(a: string, b: string)
    ensures Matches(a, b) <==> Matches(b, a)
  {
  }

  /** Names that normalise to the same text always match. */
  lemma EqualNormalizedMatch(a: string, b: string)
    requires Normalized(a) == Normalized(b)
    ensures Matches(a, b)
  {
  }

  /** A name matches itself. */
  lemma MatchesReflexive(a: string)
    ensures Matches(a, a)
  {
  }

  /** Case and a leading space make no difference to the comparison. */
  lemma NormalizationIgnoresCaseAndPadding(s: string)
    ensures Normalized(Lowercased(s)) == Normalized(s)
    ensures Normalized([' '] + s) == Normalized(s)
  {
    LowercasedIdempotent(s);
    assert Lowercased([' '] + s) == [' '] + Lowercased(s);
    TrimSkipsLeading(' ', Lowercased(s), Whitespaces);
  }

  /** An occurrence of one normalised name in the other is a match. */
  lemma OccurrenceMatches(speciesName: string, search: string, i: int)
    requires OccursAt(Normalized(speciesName), Normalized(search), i)
    ensures Matches(speciesName, search)
  {
    ContainsMeansOccurs(Normalized(speciesName), Normalized(search));
  }

  /** `species.first { … }`: the earliest species in list order whose name
      matches, or nil when none does. */
  function FirstMatch(species: seq<FishSpecies>, search: string): (r: Option<FishSpecies>)
    ensures r.None? <==> forall i :: 0 <= i < |species| ==> !Matches(species[i].speciesName, search)
    ensures r.Some? ==> exists i :: 0 <= i < |species| && species[i] == r.value
                          && Matches(species[i].speciesName, search)
                          && forall j :: 0 <= j < i ==> !Matches(species[j].speciesName, search)
  {
    FirstWhere(species, (f: FishSpecies) => Matches(f.speciesName, search))
  }

  /** A search that is blank after trimming is contained in every name, so
      it picks the first species of any non-empty list. */
  lemma BlankSearchMatchesFirst(species: seq<FishSpecies>, search: string)
    requires species != [] && Normalized(search) == []
    ensures FirstMatch(species, search) == Some(species[0])
  {
    ContainsSelfAndEmpty(Normalized(species[0].speciesName));
  }

  /** If the species at index `k` matches and none before it does, the
      selection is exactly that species. */
  lemma FirstMatchAt(species: seq<FishSpecies>, search: string, k: int)
    requires 0 <= k < |species| && Matches(species[k].speciesName, search)
    requires forall j :: 0 <= j < k ==> !Matches(species[j].speciesName, search)
    ensures FirstMatch(species, search) == Some(species[k])
  {
    var r := FirstMatch(species, search);
    var i :| 0 <= i < |species| && species[i] == r.value && Matches(species[i].speciesName, search)
               && forall j :: 0 <= j < i ==> !Matches(species[j].speciesName, search);
    assert i == k;
  }

  /** A name with no space or tab at either end normalises to its lower-cased
      form. */
  lemma NormalizedUnpadded(s: string)
    requires s != [] && !Whitespaces.Has(LowerChar(s[0])) && !Whitespaces.Has(LowerChar(s[|s| - 1]))
    ensures Normalized(s) == Lowercased(s)
  {
    var l := Lowercased(s);
    assert LeadingCount(l, Whitespaces) == 0;
    assert l[0..] == l;
    assert TrailingCount(l, Whitespaces) == 0;
  }

  lemma LowercasedSnapper()
    ensures Lowercased("snapper") == "snapper"
  {
  }

  lemma NormalizedSnapper()
    ensures Normalized("snapper") == "snapper"
  {
    NormalizedUnpadded("snapper");
    LowercasedSnapper();
  }

  lemma LowercasedCapitalSnapper()
    ensures Lowercased("Snapper") == "snapper"
  {
  }

  lemma NormalizedCapitalSnapper()
    ensures Normalized("Snapper") == "snapper"
  {
    NormalizedUnpadded("Snapper");
    LowercasedCapitalSnapper();
  }

  lemma LowercasedMahiMahi()
    ensures Lowercased("Mahi Mahi") == "mahi mahi"
  {
  }

  lemma NormalizedMahiMahi()
    ensures Normalized("Mahi Mahi") == "mahi mahi"
  {
    NormalizedUnpadded("Mahi Mahi");
    LowercasedMahiMahi();
  }

  lemma LowercasedRedSnapper()
    ensures Lowercased("Red Snapper") == "red snapper"
  {
  }

  lemma NormalizedRedSnapper()
    ensures Normalized("Red Snapper") == "red snapper"
  {
    NormalizedUnpadded("Red Snapper");
    LowercasedRedSnapper();
  }

  /** "Mahi Mahi" does not match a search that normalises to "snapper". */
  lemma MahiMahiIsNotASnapper(search: string)
    requires Normalized(search) == "snapper"
    ensures !Matches("Mahi Mahi", search)
  {
    NormalizedMahiMahi();
    assert 's' !in "mahi mahi";
    MissingFirstCharNotContained("mahi mahi", "snapper");
    LongerNotContained("snapper", "mahi mahi");
  }

  /** "Red Snapper" matches a search that normalises to "snapper". */
  lemma RedSnapperIsASnapper(search: string)
    requires Normalized(search) == "snapper"
    ensures Matches("Red Snapper", search)
  {
    NormalizedRedSnapper();
    assert OccursAt("red snapper", "snapper", 4);
    OccurrenceMatches("Red Snapper", search, 4);
  }

  /** Opened with a name that normalises to "snapper" (such as "Snapper" or
      " snapper"), the screen shows "Red Snapper": it is the first name in
      the catalogue containing the search, ahead of "Yellowtail Snapper". */
  lemma SnapperSelectsRedSnapper(search: string)
    requires Normalized(search) == "snapper"
    ensures FirstMatch(FishCatalog.CommonSpecies(), search).Some?
    ensures FirstMatch(FishCatalog.CommonSpecies(), search).value.speciesName == "Red Snapper"
  {
    var list := FishCatalog.CommonSpecies();
    FishCatalog.CommonSpeciesFacts();
    MahiMahiIsNotASnapper(search);
    RedSnapperIsASnapper(search);
    FirstMatchAt(list, search, 1);
  }

  /** An exact match gets no preference: in a list holding "Red Snapper"
      before "Snapper", the search "snapper" selects "Red Snapper". */
  lemma ExactMatchNotPreferred()
    ensures var list := [FishCatalog.NewSpecies("Red Snapper"), FishCatalog.NewSpecies("Snapper")];
            && Normalized(list[1].speciesName) == Normalized("snapper")
            && FirstMatch(list, "snapper") == Some(list[0])
  {
    var list := [FishCatalog.NewSpecies("Red Snapper"), FishCatalog.NewSpecies("Snapper")];
    NormalizedSnapper();
    NormalizedCapitalSnapper();
    RedSnapperIsASnapper("snapper");
    FirstMatchAt(list, "snapper", 0);
  }

  /** The screen's state; the catalogue manager is its own. */
  class FishDetailView {
    const fishSpecies: string
    const manager: FishCatalog.FishSpeciesManager
    var selectedFish: Option<FishSpecies>
    var isLoading: bool
    var errorMessage: Option<string>

    constructor(fishSpecies: string)
      ensures this.fishSpecies == fishSpecies && fresh(manager) && manager.species == []
      ensures selectedFish == None && !isLoading && errorMessage == None
    {
      this.fishSpecies := fishSpecies;
      manager := new FishCatalog.FishSpeciesManager();
      selectedFish := None;
      isLoading := false;
      errorMessage := None;
    }

    /** `fetchFishData`: loads the catalogue, then selects the first match.
        The catalogue's fetch cannot throw, so the error branch never runs. */
    method FetchFishData()
      modifies this, manager
      ensures manager.species == FishCatalog.CommonSpecies()
      ensures selectedFish == FirstMatch(manager.species, fishSpecies)
      ensures errorMessage == None && !isLoading
    {
      isLoading := true;
      errorMessage := None;
      manager.FetchFishSpecies();
      SelectFish();
      isLoading := false;
    }

    /** The assignment that ends `fetchFishData`'s success path:
        `selectedFish = manager.species.first { … }`. */
    method SelectFish()
      modifies this
      ensures selectedFish == FirstMatch(manager.species, fishSpecies)
      ensures errorMessage == old(errorMessage) && isLoading == old(isLoading)
    {
      selectedFish := FirstMatch(manager.species, fishSpecies);
    }
  }
}
