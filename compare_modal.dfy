/** The compare modal (components/CompareModal.tsx): the type chips that narrow the
    selected properties, the collapsible amenities list, the "Read More" rule for long
    descriptions, and the fallbacks shown for missing fields. */
module CompareModal {
  import opened Common
  import opened Text
  import opened Seqs

  /** The chips offered above the table. */
  const FilterChips: seq<string> := ["All", "Villa", "Bungalow", "Plot"]

  /** The type test of `filteredProperties`: "All" keeps everything, "Plot" also takes in
      the residential and commercial kinds, any other value must equal the type name. */
  predicate ChipKeeps(activeFilter: string, p: Property) {
    if activeFilter == "All" then true
    else if activeFilter == "Plot" then p.kind == Plot || p.kind == Residential || p.kind == Commercial
    else TypeName(p.kind) == activeFilter
  }

  /** `filteredProperties` of the modal. */
  function FilterByType(properties: seq<Property>, activeFilter: string): (r: seq<Property>)
    ensures SubsequenceOf(r, properties)
    ensures activeFilter == "All" ==> r == properties
    ensures activeFilter == "Plot" ==>
      forall p :: p in r <==> p in properties && (p.kind == Plot || p.kind == Residential || p.kind == Commercial)
    ensures activeFilter != "All" && activeFilter != "Plot" ==>
      forall p :: p in r <==> p in properties && TypeName(p.kind) == activeFilter
  {
    var keep := (p: Property) => ChipKeeps(activeFilter, p);
    FilterIsSubsequence(properties, keep);
    assert activeFilter == "All" ==> Filter(properties, keep) == properties by {
      if activeFilter == "All" {
        FilterKeepsAll(properties, keep);
      }
    }
    Filter(properties, keep)
  }

  /** Choosing the chip that is already active shows the same columns. */
  lemma FilterByTypeIdempotent(properties: seq<Property>, activeFilter: string)
    ensures FilterByType(FilterByType(properties, activeFilter), activeFilter)
         == FilterByType(properties, activeFilter)
  {
    FilterIdempotent(properties, (p: Property) => ChipKeeps(activeFilter, p));
  }

  /** The "Plot" chip keeps at least the properties whose type is exactly "Plot". */
  lemma PlotChipWidens(properties: seq<Property>, p: Property)
    requires p in properties && p.kind == Plot
    ensures p in FilterByType(properties, "Plot")
  {
  }

  /** Number of amenities shown while the list is collapsed. */
  const CollapsedAmenities: nat := 4

  /** `hasMore`: the expand button exists. */
  predicate HasMore(amenities: seq<string>) {
    |amenities| > CollapsedAmenities
  }

  /** `shownAmenities`: all of them when expanded, else the first four. */
  function ShownAmenities(amenities: seq<string>, expanded: bool): (r: seq<string>)
    ensures expanded ==> r == amenities
    ensures !expanded ==> |r| == Min(CollapsedAmenities, |amenities|) && r == amenities[..|r|]
  {
    if expanded then amenities else Take(amenities, CollapsedAmenities)
  }

  /** Without an expand button, collapsing hides nothing. */
  lemma ShortListNeverCollapses(amenities: seq<string>)
    requires !HasMore(amenities)
    ensures ShownAmenities(amenities, false) == amenities
  {
  }

  /** The expand button's caption, or `None` when there is no button. */
  function AmenitiesToggleLabel(amenities: seq<string>, expanded: bool): (caption: Option<string>)
    ensures caption.None? <==> !HasMore(amenities)
    ensures HasMore(amenities) && expanded ==> caption == Some("Show Less")
    ensures HasMore(amenities) && !expanded ==>
      caption == Some("+" + NatToString(|amenities| - CollapsedAmenities) + " more")
  {
    if !HasMore(amenities) then None
    else if expanded then Some("Show Less")
    else Some("+" + NatToString(|amenities| - CollapsedAmenities) + " more")
  }

  /** The number in the collapsed caption is exactly the number of amenities left hidden. */
  lemma CollapsedLabelCountsHidden(amenities: seq<string>)
    requires HasMore(amenities)
    ensures var caption := AmenitiesToggleLabel(amenities, false).value;
            var digits := caption[1..|caption| - 5];
            (forall i :: 0 <= i < |digits| ==> IsDigit(digits[i]))
            && DigitsValue(digits) == |amenities| - |ShownAmenities(amenities, false)|
  {
    var n := |amenities| - CollapsedAmenities;
    var caption := "+" + NatToString(n) + " more";
    assert caption[1..|caption| - 5] == NatToString(n);
    DigitsValueOfNatToString(n);
  }

  /** Descriptions longer than this many characters get a "Read More" button. */
  const TruncateAbove: nat := 100

  /** `shouldTruncate`. */
  predicate ShouldTruncate(text: string) {
    |text| > TruncateAbove
  }

  /** The description button's caption, or `None` when the text is short. */
  function DescriptionToggleLabel(text: string, expanded: bool): (caption: Option<string>)
    ensures caption.None? <==> |text| <= TruncateAbove
    ensures caption.Some? ==> (caption.value == "Show Less" <==> expanded)
    ensures caption.Some? ==> caption.value == "Show Less" || caption.value == "Read More"
  {
    if !ShouldTruncate(text) then None
    else if expanded then Some("Show Less")
    else Some("Read More")
  }

  const DefaultAmenities: seq<string> := ["Standard Amenities"]

  const DefaultDescription: string :=
    "A beautiful property situated in a prime location with excellent connectivity and modern amenities."

  /** `p.amenities || ['Standard Amenities']`: an absent list is replaced; an empty array is
      truthy, so a present empty list stays empty. */
  function AmenitiesOf(p: Property): (r: seq<string>)
    ensures p.amenities.Some? ==> r == p.amenities.value
    ensures p.amenities.None? ==> r == DefaultAmenities
  {
    p.amenities.GetOr(DefaultAmenities)
  }

  /** A property without amenities shows one default entry and no expand button. */
  lemma DefaultAmenitiesFit(p: Property)
    requires p.amenities.None?
    ensures !HasMore(AmenitiesOf(p)) && ShownAmenities(AmenitiesOf(p), false) == DefaultAmenities
  {
  }

  /** The description cell: never empty. */
  function DescriptionOf(p: Property): (r: string)
    ensures r != ""
    ensures p.description.Some? && p.description.value != "" ==> r == p.description.value
    ensures p.description.None? ==> r == DefaultDescription
    ensures p.description.Some? && p.description.value == "" ==> r == DefaultDescription
  {
    OrElse(p.description, DefaultDescription)
  }

  /** The default description is short enough to show without a "Read More" button. */
  lemma DefaultDescriptionFits()
    ensures !ShouldTruncate(DefaultDescription)
  {
  }

  /** The size and status cells. */
  function SizeOf(p: Property): (r: string)
    ensures r != ""
    ensures p.size.Some? && p.size.value != "" ==> r == p.size.value
    ensures p.size.None? ==> r == "N/A"
    ensures p.size.Some? && p.size.value == "" ==> r == "N/A"
  {
    OrElse(p.size, "N/A")
  }

  function StatusOf(p: Property): (r: string)
    ensures r != ""
    ensures p.status.Some? && p.status.value != "" ==> r == p.status.value
    ensures p.status.None? ==> r == "For Sale"
    ensures p.status.Some? && p.status.value == "" ==> r == "For Sale"
  {
    OrElse(p.status, "For Sale")
  }
}
