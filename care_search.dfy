/** The care-provider listing: the providers built from the caregiver
    records, the search that narrows them by keyword, location and
    specializations, and the filter controls that drive it. */
module CareSearch {
  import opened Text
  import opened Lists

  /** A caregiver record as stored in the data file. Languages, availability
      and the hourly rate are kept, though no filter reads them. */
  datatype Taker = Taker(
    id: string,
    name: string,
    profilePicture: string,
    bio: string,
    location: string,
    specializations: seq<string>,
    languages: seq<string>,
    availability: string,
    hourlyRate: real)

  /** What a provider card shows. */
  datatype Provider = Provider(
    id: string,
    name: string,
    image: string,
    tagline: string,
    specializations: seq<string>,
    location: string)

  /** The card for a record: the picture becomes the image and the bio the
      tagline; id, name, specializations and location are copied. */
  function ToProvider(t: Taker): (p: Provider)
    ensures p.id == t.id && p.name == t.name && p.location == t.location
    ensures p.image == t.profilePicture && p.tagline == t.bio && p.specializations == t.specializations
  {
    Provider(t.id, t.name, t.profilePicture, t.bio, t.specializations, t.location)
  }

  /** The full listing: one card per record, in the records' order. */
  function AllProviders(takers: seq<Taker>): (r: seq<Provider>)
    ensures |r| == |takers|
    ensures forall i :: 0 <= i < |takers| ==> r[i] == ToProvider(takers[i])
  {
    seq(|takers|, i requires 0 <= i < |takers| => ToProvider(takers[i]))
  }

  /** The keyword test, `query` already lower-cased: the lower-cased name,
      tagline or some specialization includes it. */
  predicate MatchesQuery(p: Provider, query: string)
  {
    || Contains(ToLower(p.name), query)
    || Contains(ToLower(p.tagline), query)
    || exists spec :: spec in p.specializations && Contains(ToLower(spec), query)
  }

  /** The location test: the lower-cased location includes the lower-cased choice. */
  predicate MatchesLocation(p: Provider, location: string)
  {
    Contains(ToLower(p.location), ToLower(location))
  }

  /** The specialization test: every ticked label is one of the provider's. */
  predicate HasAllSpecializations(p: Provider, selected: seq<string>)
  {
    forall spec :: spec in selected ==> spec in p.specializations
  }

  /** The three tests as the callbacks handed to `filter`. */
  function QueryTest(query: string): Provider -> bool
  {
    var lower := ToLower(query);
    p => MatchesQuery(p, lower)
  }

  function LocationTest(location: string): Provider -> bool
  {
    p => MatchesLocation(p, location)
  }

  function SpecializationTest(selected: seq<string>): Provider -> bool
  {
    p => HasAllSpecializations(p, selected)
  }

  /** One guarded pass: skipped when the control is empty. */
  function Narrow(s: seq<Provider>, active: bool, test: Provider -> bool): seq<Provider>
  {
    if active then Filter(s, test) else s
  }

  /** `handleSearch`: the full listing, then the keyword filter when there is
      a query, then the location filter when a location is chosen, then the
      specialization filter when a label is ticked. */
  function Search(takers: seq<Taker>, query: string, location: string, selected: seq<string>): (r: seq<Provider>)
    ensures |r| <= |takers|
    ensures forall p :: p in r ==> p in AllProviders(takers)
  {
    var byQuery := Narrow(AllProviders(takers), query != "", QueryTest(query));
    var byLocation := Narrow(byQuery, location != "", LocationTest(location));
    Narrow(byLocation, |selected| > 0, SpecializationTest(selected))
  }

  /** A provider passes all three tests. An empty query or location passes
      every provider, as the empty string is included in every string. */
  predicate Admits(p: Provider, query: string, location: string, selected: seq<string>)
  {
    MatchesQuery(p, ToLower(query)) && MatchesLocation(p, location) && HasAllSpecializations(p, selected)
  }

  /** Skipping a pass is the same as running it when the test passes everything. */
  lemma NarrowSkip(s: seq<Provider>, active: bool, test: Provider -> bool)
    requires !active ==> forall i :: 0 <= i < |s| ==> test(s[i])
    ensures Narrow(s, active, test) == Filter(s, test)
  {
    if !active {
      FilterKeepsAll(s, test);
    }
  }

  lemma EmptyQueryPasses(s: seq<Provider>)
    ensures Narrow(s, false, QueryTest("")) == Filter(s, QueryTest(""))
  {
    assert ToLower("") == "";
    forall i | 0 <= i < |s| ensures QueryTest("")(s[i]) {
      ContainsEmpty(ToLower(s[i].name));
    }
    NarrowSkip(s, false, QueryTest(""));
  }

  lemma EmptyLocationPasses(s: seq<Provider>)
    ensures Narrow(s, false, LocationTest("")) == Filter(s, LocationTest(""))
  {
    assert ToLower("") == "";
    forall i | 0 <= i < |s| ensures LocationTest("")(s[i]) {
      ContainsEmpty(ToLower(s[i].location));
    }
    NarrowSkip(s, false, LocationTest(""));
  }

  lemma NothingTickedPasses(s: seq<Provider>)
    ensures Narrow(s, false, SpecializationTest([])) == Filter(s, SpecializationTest([]))
  {
    NarrowSkip(s, false, SpecializationTest([]));
  }

  /** Each guarded pass of the search equals its filter run unconditionally. */
  lemma SearchRunsEveryPass(takers: seq<Taker>, query: string, location: string, selected: seq<string>)
    ensures Search(takers, query, location, selected) ==
            Filter(Filter(Filter(AllProviders(takers), QueryTest(query)), LocationTest(location)),
                   SpecializationTest(selected))
  {
    var all := AllProviders(takers);
    if query == "" { EmptyQueryPasses(all); }
    var byQuery := Filter(all, QueryTest(query));
    if location == "" { EmptyLocationPasses(byQuery); }
    var byLocation := Filter(byQuery, LocationTest(location));
    if |selected| == 0 { NothingTickedPasses(byLocation); }
  }

  /** The three guarded passes are one pass by the conjunction of the tests. */
  lemma SearchIsOneFilter(takers: seq<Taker>, query: string, location: string, selected: seq<string>)
    ensures Search(takers, query, location, selected) ==
            Filter(AllProviders(takers), p => Admits(p, query, location, selected))
  {
    SearchRunsEveryPass(takers, query, location, selected);
    FilterFusion3(AllProviders(takers), QueryTest(query), LocationTest(location), SpecializationTest(selected),
                  p => Admits(p, query, location, selected));
  }

  /** A provider is listed exactly when its record is in the data and it
      passes the keyword, location and specialization tests. */
  lemma SearchMembership(takers: seq<Taker>, query: string, location: string, selected: seq<string>, p: Provider)
    ensures p in Search(takers, query, location, selected) <==>
            p in AllProviders(takers) &&
            MatchesQuery(p, ToLower(query)) && MatchesLocation(p, location) && HasAllSpecializations(p, selected)
  {
    SearchIsOneFilter(takers, query, location, selected);
  }

  /** The listing keeps the records' order: each pass drops cards and never
      reorders them. */
  lemma SearchPreservesOrder(takers: seq<Taker>, query: string, location: string, selected: seq<string>)
    ensures IsSubsequence(Search(takers, query, location, selected), AllProviders(takers))
  {
    var all := AllProviders(takers);
    var byQuery := Narrow(all, query != "", QueryTest(query));
    var byLocation := Narrow(byQuery, location != "", LocationTest(location));
    var result := Search(takers, query, location, selected);
    NarrowIsSubsequence(all, query != "", QueryTest(query));
    NarrowIsSubsequence(byQuery, location != "", LocationTest(location));
    NarrowIsSubsequence(byLocation, |selected| > 0, SpecializationTest(selected));
    SubsequenceTransitive(byLocation, byQuery, all);
    SubsequenceTransitive(result, byLocation, all);
  }

  lemma NarrowIsSubsequence(s: seq<Provider>, active: bool, test: Provider -> bool)
    ensures IsSubsequence(Narrow(s, active, test), s)
  {
    if active {
      FilterIsSubsequence(s, test);
    } else {
      SubsequenceReflexive(s);
    }
  }

  /** With no query, no location and nothing ticked, the whole listing shows. */
  lemma NoFilterShowsAll(takers: seq<Taker>)
    ensures Search(takers, "", "", []) == AllProviders(takers)
  {
  }

  /** Unticking a label: every occurrence of it is removed, the rest kept in order. */
  function Untick(selected: seq<string>, choice: string): (r: seq<string>)
    ensures choice !in r
    ensures forall s :: s in selected && s != choice ==> s in r
    ensures IsSubsequence(r, selected)
  {
    FilterIsSubsequence(selected, s => s != choice);
    Filter(selected, s => s != choice)
  }

  /** Ticking a label that was not ticked and unticking it again restores
      the selection. */
  lemma TickThenUntick(selected: seq<string>, choice: string)
    requires choice !in selected
    ensures Untick(selected + [choice], choice) == selected
  {
    var keep := (s: string) => s != choice;
    FilterAppend(selected, [choice], keep);
    FilterKeepsAll(selected, keep);
    assert Filter([choice], keep) == [];
  }

  /** The care page's state: the records it was built from, the listing shown
      and the filter controls. */
  class CarePage {
    const takers: seq<Taker>
    var providers: seq<Provider>
    var searchQuery: string
    var selectedLocation: string
    var selectedAvailability: string
    var selectedLanguage: string
    var selectedPriceRange: string
    var selectedSpecializations: seq<string>

    /** The listing shown is the search over the current query, location and
        ticked labels (the effect re-runs the search when one of them changes). */
    ghost predicate Synced()
      reads this
    {
      providers == Search(takers, searchQuery, selectedLocation, selectedSpecializations)
    }

    constructor (records: seq<Taker>)
      ensures takers == records && providers == AllProviders(records)
      ensures searchQuery == "" && selectedLocation == "" && selectedAvailability == ""
      ensures selectedLanguage == "" && selectedPriceRange == "" && selectedSpecializations == []
      ensures Synced()
    {
      takers := records;
      providers := AllProviders(records);
      searchQuery, selectedLocation, selectedAvailability := "", "", "";
      selectedLanguage, selectedPriceRange, selectedSpecializations := "", "", [];
      NoFilterShowsAll(records);
    }

    /** `handleSearch`, the button and the effect. */
    method HandleSearch()
      modifies this`providers
      ensures Synced()
    {
      var filtered := AllProviders(takers);
      if searchQuery != "" {
        filtered := Filter(filtered, QueryTest(searchQuery));
      }
      if selectedLocation != "" {
        filtered := Filter(filtered, LocationTest(selectedLocation));
      }
      if |selectedSpecializations| > 0 {
        filtered := Filter(filtered, SpecializationTest(selectedSpecializations));
      }
      providers := filtered;
    }

    /** The search box, followed by the effect. */
    method SetSearchQuery(value: string)
      modifies this`searchQuery, this`providers
      ensures searchQuery == value && Synced()
    {
      searchQuery := value;
      HandleSearch();
    }

    /** The location select, followed by the effect. */
    method SetLocation(value: string)
      modifies this`selectedLocation, this`providers
      ensures selectedLocation == value && Synced()
    {
      selectedLocation := value;
      HandleSearch();
    }

    /** The availability select; no search is re-run and none is needed. */
    method SetAvailability(value: string)
      requires Synced()
      modifies this`selectedAvailability
      ensures selectedAvailability == value && Synced()
    {
      selectedAvailability := value;
    }

    /** The language select; no search is re-run and none is needed. */
    method SetLanguage(value: string)
      requires Synced()
      modifies this`selectedLanguage
      ensures selectedLanguage == value && Synced()
    {
      selectedLanguage := value;
    }

    /** The price-range select; no search is re-run and none is needed. */
    method SetPriceRange(value: string)
      requires Synced()
      modifies this`selectedPriceRange
      ensures selectedPriceRange == value && Synced()
    {
      selectedPriceRange := value;
    }

    /** A specialization checkbox, followed by the effect: ticking appends
        the label, unticking removes every occurrence of it. */
    method SpecializationChanged(choice: string, checked: bool)
      modifies this`selectedSpecializations, this`providers
      ensures selectedSpecializations ==
              if checked then old(selectedSpecializations) + [choice] else Untick(old(selectedSpecializations), choice)
      ensures Synced()
    {
      if checked {
        selectedSpecializations := selectedSpecializations + [choice];
      } else {
        selectedSpecializations := Filter(selectedSpecializations, s => s != choice);
      }
      HandleSearch();
    }

    /** `clearFilters`: every control emptied and the full listing restored. */
    method ClearFilters()
      modifies this
      ensures searchQuery == "" && selectedLocation == "" && selectedAvailability == ""
      ensures selectedLanguage == "" && selectedPriceRange == "" && selectedSpecializations == []
      ensures providers == AllProviders(takers) && Synced()
    {
      searchQuery, selectedLocation, selectedAvailability := "", "", "";
      selectedLanguage, selectedPriceRange, selectedSpecializations := "", "", [];
      providers := AllProviders(takers);
      NoFilterShowsAll(takers);
    }
  }
}
