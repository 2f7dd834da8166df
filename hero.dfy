/** The home-page hero (components/Hero.tsx): a slideshow that advances one slide at a
    time, search tabs that narrow the catalogue by type, a location box suggesting the
    de-duplicated known locations that contain the query, and a project box suggesting
    properties whose title or location contains the query. */
module Hero {
  import opened Common
  import opened Text
  import opened Seqs
  import opened Catalogue

  /** The tabs above the search boxes. */
  const Tabs: seq<string> := ["Buy", "Residential", "Commercial", "Villa/Bungalow"]

  /** The type test of `getFilteredPropertiesByType`; "Buy" and any other tab keep everything. */
  predicate TabKeeps(tab: string, p: Property) {
    if tab == "Villa/Bungalow" then p.kind == Villa || p.kind == Bungalow
    else if tab == "Residential" then p.kind == Residential || p.kind == Plot
    else if tab == "Commercial" then p.kind == Commercial
    else true
  }

  /** The properties a tab offers, out of `all`, in their original order. */
  function TabProperties(all: seq<Property>, tab: string): (r: seq<Property>)
    ensures SubsequenceOf(r, all)
    ensures tab == "Villa/Bungalow" ==> forall p :: p in r <==> p in all && (p.kind == Villa || p.kind == Bungalow)
    ensures tab == "Residential" ==> forall p :: p in r <==> p in all && (p.kind == Residential || p.kind == Plot)
    ensures tab == "Commercial" ==> forall p :: p in r <==> p in all && p.kind == Commercial
    ensures tab != "Villa/Bungalow" && tab != "Residential" && tab != "Commercial" ==> r == all
  {
    var keep := (p: Property) => TabKeeps(tab, p);
    FilterIsSubsequence(all, keep);
    assert tab != "Villa/Bungalow" && tab != "Residential" && tab != "Commercial" ==> Filter(all, keep) == all by {
      if tab != "Villa/Bungalow" && tab != "Residential" && tab != "Commercial" {
        FilterKeepsAll(all, keep);
      }
    }
    Filter(all, keep)
  }

  /** `availableProperties`: the tab applied to the highlighted then the popular properties. */
  function AvailableProperties(tab: string): seq<Property> {
    TabProperties(HighlightedProjects + PopularProperties, tab)
  }

  /** "Buy" offers the catalogue unchanged. */
  lemma BuyOffersEverything()
    ensures AvailableProperties("Buy") == AllProperties
  {
  }

  function LocationNames(locations: seq<LocationItem>): (names: seq<string>)
    ensures |names| == |locations|
    ensures forall i :: 0 <= i < |locations| ==> names[i] == locations[i].name
  {
    seq(|locations|, i requires 0 <= i < |locations| => locations[i].name)
  }

  function PropertyLocations(properties: seq<Property>): (locs: seq<string>)
    ensures |locs| == |properties|
    ensures forall i :: 0 <= i < |properties| ==> locs[i] == properties[i].location
  {
    seq(|properties|, i requires 0 <= i < |properties| => properties[i].location)
  }

  /** The names of the top locations, then the locations of the offered properties. */
  function LocationCandidates(properties: seq<Property>): seq<string> {
    LocationNames(TopLocations) + PropertyLocations(properties)
  }

  /** `availableLocations`: each candidate once, in order of first occurrence, keeping those
      that contain the query case-insensitively. */
  function AvailableLocations(properties: seq<Property>, query: string): (r: seq<string>)
    ensures NoDuplicates(r)
    ensures forall loc :: loc in r <==> loc in LocationCandidates(properties) && ContainsIgnoringCase(loc, query)
    ensures forall i, j :: 0 <= i < j < |r| ==>
      FirstIndex(LocationCandidates(properties), r[i]) < FirstIndex(LocationCandidates(properties), r[j])
  {
    var cands := LocationCandidates(properties);
    var d := Dedup(cands);
    var keep := (loc: string) => ContainsIgnoringCase(loc, query);
    FilterKeepsPairwise(d, keep, (a: string, b: string) => a != b);
    FilterKeepsPairwise(d, keep, (a: string, b: string) => a in cands && b in cands && FirstIndex(cands, a) < FirstIndex(cands, b));
    Filter(d, keep)
  }

  /** With an empty query every candidate is suggested, de-duplicated. */
  lemma EmptyLocationQueryKeepsAll(properties: seq<Property>)
    ensures AvailableLocations(properties, "") == Dedup(LocationCandidates(properties))
  {
    var d := Dedup(LocationCandidates(properties));
    forall loc | loc in d ensures ContainsIgnoringCase(loc, "") {
      ContainsEmpty(Lower(loc));
    }
    FilterKeepsAll(d, (loc: string) => ContainsIgnoringCase(loc, ""));
  }

  /** Among the suggestions, every top-location name comes before every other location. */
  lemma TopLocationsFirst(properties: seq<Property>, query: string)
    ensures var r := AvailableLocations(properties, query);
            forall i, j :: 0 <= i < j < |r| && r[j] in LocationNames(TopLocations) ==> r[i] in LocationNames(TopLocations)
  {
    var r := AvailableLocations(properties, query);
    var names := LocationNames(TopLocations);
    var cands := LocationCandidates(properties);
    forall i, j | 0 <= i < j < |r| && r[j] in names ensures r[i] in names {
      FirstIndexOfPrefix(cands, |names|, r[j]);
      assert cands[..|names|] == names;
      var k := FirstIndex(cands, r[i]);
      assert k < |names|;
      assert cands[k] == names[k];
    }
  }

  /** Picking a suggestion puts it in the box, and it is still suggested. */
  lemma SelectedLocationStaysSuggested(properties: seq<Property>, loc: string)
    requires loc in LocationCandidates(properties)
    ensures loc in AvailableLocations(properties, loc)
  {
    assert StartsWith(Lower(loc), Lower(loc));
  }

  /** A project matches when its title or its location contains the query, ignoring case. */
  predicate ProjectMatches(query: string, p: Property) {
    ContainsIgnoringCase(p.title, query) || ContainsIgnoringCase(p.location, query)
  }

  /** `filteredProjects`. */
  function FilteredProjects(properties: seq<Property>, query: string): (r: seq<Property>)
    ensures SubsequenceOf(r, properties)
    ensures forall p :: p in r <==>
      (p in properties && (Contains(Lower(p.title), Lower(query)) || Contains(Lower(p.location), Lower(query))))
  {
    var keep := (p: Property) => ProjectMatches(query, p);
    FilterIsSubsequence(properties, keep);
    Filter(properties, keep)
  }

  /** With an empty query every offered property is suggested. */
  lemma EmptyProjectQueryKeepsAll(properties: seq<Property>)
    ensures FilteredProjects(properties, "") == properties
  {
    forall p | p in properties ensures ProjectMatches("", p) {
      ContainsEmpty(Lower(p.title));
    }
    FilterKeepsAll(properties, (p: Property) => ProjectMatches("", p));
  }

  /** Picking a project puts its title in the box, and it is still suggested. */
  lemma SelectedProjectStaysSuggested(properties: seq<Property>, p: Property)
    requires p in properties
    ensures p in FilteredProjects(properties, p.title)
  {
    assert StartsWith(Lower(p.title), Lower(p.title));
  }

  /** The slideshow step `(prev + 1) % n`. */
  function NextSlide(i: nat, n: nat): (j: nat)
    requires n > 0
    ensures j < n
    ensures i < n - 1 ==> j == i + 1
    ensures i == n - 1 ==> j == 0
  {
    (i + 1) % n
  }

  /** The slide shown after `k` steps from slide `i`. */
  function SlideAfter(i: nat, k: nat, n: nat): (j: nat)
    requires n > 0
    decreases k
  {
    if k == 0 then i else NextSlide(SlideAfter(i, k - 1, n), n)
  }

  /** Steps compose: `a` steps then `b` steps is `a + b` steps. */
  lemma {:induction false} SlideAfterAdd(i: nat, a: nat, b: nat, n: nat)
    requires n > 0
    ensures SlideAfter(i, a + b, n) == SlideAfter(SlideAfter(i, a, n), b, n)
    decreases b
  {
    if b > 0 {
      SlideAfterAdd(i, a, b - 1, n);
    }
  }

  /** Before the end of the show each step moves one slide on. */
  lemma {:induction false} SlideAfterBelowEnd(i: nat, k: nat, n: nat)
    requires i + k < n
    ensures SlideAfter(i, k, n) == i + k
    decreases k
  {
    if k > 0 {
      SlideAfterBelowEnd(i, k - 1, n);
    }
  }

  /** After `n` steps the slideshow is back where it started. */
  lemma SlidesCycle(i: nat, n: nat)
    requires i < n
    ensures SlideAfter(i, n, n) == i
  {
    SlideAfterBelowEnd(i, n - i - 1, n);
    assert SlideAfter(i, n - i, n) == 0;
    SlideAfterAdd(i, n - i, i, n);
    SlideAfterBelowEnd(0, i, n);
  }

  /** The state fields of the hero. */
  class HeroSearch {
    var currentSlide: nat
    var activeTab: string
    var locationQuery: string
    var projectQuery: string
    var showLocSuggestions: bool
    var showProjSuggestions: bool

    ghost predicate Valid()
      reads this
    {
      currentSlide < HeroSlideCount
    }

    constructor()
      ensures Valid()
      ensures currentSlide == 0 && activeTab == "Buy" && locationQuery == "" && projectQuery == ""
      ensures !showLocSuggestions && !showProjSuggestions
    {
      currentSlide := 0;
      activeTab := "Buy";
      locationQuery := "";
      projectQuery := "";
      showLocSuggestions := false;
      showProjSuggestions := false;
    }

    /** The location suggestions in this state. */
    function Locations(): seq<string>
      reads this
    {
      AvailableLocations(AvailableProperties(activeTab), locationQuery)
    }

    /** The project suggestions in this state. */
    function Projects(): seq<Property>
      reads this
    {
      FilteredProjects(AvailableProperties(activeTab), projectQuery)
    }

    /** One tick of the slideshow interval. */
    method AdvanceSlide()
      requires Valid()
      modifies this
      ensures Valid()
      ensures currentSlide == NextSlide(old(currentSlide), HeroSlideCount)
      ensures activeTab == old(activeTab) && locationQuery == old(locationQuery)
      ensures projectQuery == old(projectQuery)
      ensures showLocSuggestions == old(showLocSuggestions) && showProjSuggestions == old(showProjSuggestions)
    {
      currentSlide := (currentSlide + 1) % HeroSlideCount;
    }

    /** A tab click: the tab changes and both search boxes are emptied, so every
        candidate is suggested again. */
    method SelectTab(tab: string)
      modifies this
      ensures activeTab == tab && locationQuery == "" && projectQuery == ""
      ensures Locations() == Dedup(LocationCandidates(AvailableProperties(tab)))
      ensures Projects() == AvailableProperties(tab)
      ensures currentSlide == old(currentSlide)
      ensures showLocSuggestions == old(showLocSuggestions) && showProjSuggestions == old(showProjSuggestions)
    {
      activeTab := tab;
      locationQuery := "";
      projectQuery := "";
      EmptyLocationQueryKeepsAll(AvailableProperties(tab));
      EmptyProjectQueryKeepsAll(AvailableProperties(tab));
    }

    /** Typing in the location box opens its dropdown. */
    method TypeLocation(text: string)
      modifies this
      ensures locationQuery == text && showLocSuggestions
      ensures currentSlide == old(currentSlide) && activeTab == old(activeTab)
      ensures projectQuery == old(projectQuery) && showProjSuggestions == old(showProjSuggestions)
    {
      locationQuery := text;
      showLocSuggestions := true;
    }

    /** Typing in the project box opens its dropdown. */
    method TypeProject(text: string)
      modifies this
      ensures projectQuery == text && showProjSuggestions
      ensures currentSlide == old(currentSlide) && activeTab == old(activeTab)
      ensures locationQuery == old(locationQuery) && showLocSuggestions == old(showLocSuggestions)
    {
      projectQuery := text;
      showProjSuggestions := true;
    }

    /** Focusing a box opens its dropdown without changing the query. */
    method FocusBox(location: bool)
      modifies this
      ensures location ==> showLocSuggestions && showProjSuggestions == old(showProjSuggestions)
      ensures !location ==> showProjSuggestions && showLocSuggestions == old(showLocSuggestions)
      ensures currentSlide == old(currentSlide) && activeTab == old(activeTab)
      ensures locationQuery == old(locationQuery) && projectQuery == old(projectQuery)
    {
      if location {
        showLocSuggestions := true;
      } else {
        showProjSuggestions := true;
      }
    }

    /** `handleLocationSelect`: the suggestion fills the box and the dropdown closes. */
    method SelectLocation(loc: string)
      modifies this
      ensures locationQuery == loc && !showLocSuggestions
      ensures loc in old(Locations()) ==> loc in Locations()
      ensures currentSlide == old(currentSlide) && activeTab == old(activeTab)
      ensures projectQuery == old(projectQuery) && showProjSuggestions == old(showProjSuggestions)
    {
      locationQuery := loc;
      showLocSuggestions := false;
      if loc in old(Locations()) {
        SelectedLocationStaysSuggested(AvailableProperties(activeTab), loc);
      }
    }

    /** `handleProjectSelect`: the title fills the box, the dropdown closes and the property
        is handed to `onSelectProperty`. */
    method SelectProject(p: Property) returns (selected: Property)
      modifies this
      ensures selected == p
      ensures projectQuery == p.title && !showProjSuggestions
      ensures p in old(Projects()) ==> p in Projects()
      ensures currentSlide == old(currentSlide) && activeTab == old(activeTab)
      ensures locationQuery == old(locationQuery) && showLocSuggestions == old(showLocSuggestions)
    {
      projectQuery := p.title;
      showProjSuggestions := false;
      if p in old(Projects()) {
        SelectedProjectStaysSuggested(AvailableProperties(activeTab), p);
      }
      selected := p;
    }

    /** A click outside a box closes that box's dropdown. */
    method ClickOutside(outsideLocation: bool, outsideProject: bool)
      modifies this
      ensures showLocSuggestions == (old(showLocSuggestions) && !outsideLocation)
      ensures showProjSuggestions == (old(showProjSuggestions) && !outsideProject)
      ensures currentSlide == old(currentSlide) && activeTab == old(activeTab)
      ensures locationQuery == old(locationQuery) && projectQuery == old(projectQuery)
    {
      if outsideLocation {
        showLocSuggestions := false;
      }
      if outsideProject {
        showProjSuggestions := false;
      }
    }
  }
}
