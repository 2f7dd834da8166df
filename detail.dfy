/** The property page (components/PropertyDetail.tsx): an image gallery with a cursor that
    wraps around at both ends, the thumbnail and arrow controls, and the "similar
    properties" strip of at most two popular properties other than the one shown. */
module Detail {
  import opened Common
  import opened Seqs
  import opened Catalogue

  /** `galleryImages`: the property's image list when it has one, else its single image. */
  function GalleryImages(p: Property): (g: seq<string>)
    ensures |g| >= 1
    ensures p.images.Some? && |p.images.value| > 0 ==> g == p.images.value
    ensures p.images.None? || |p.images.value| == 0 ==> g == [p.image]
  {
    if p.images.Some? && |p.images.value| > 0 then p.images.value else [p.image]
  }

  /** `nextImage`'s step: the last index goes to 0, any other index up by one. */
  function NextIndex(i: int, n: int): (j: int)
    ensures 0 <= i < n ==> 0 <= j < n
    ensures i == n - 1 ==> j == 0
    ensures i != n - 1 ==> j == i + 1
  {
    if i == n - 1 then 0 else i + 1
  }

  /** `prevImage`'s step: index 0 goes to the last index, any other index down by one. */
  function PrevIndex(i: int, n: int): (j: int)
    ensures 0 <= i < n ==> 0 <= j < n
    ensures i == 0 ==> j == n - 1
    ensures i != 0 ==> j == i - 1
  {
    if i == 0 then n - 1 else i - 1
  }

  /** On a fixed gallery the two arrows undo each other. */
  lemma ArrowsAreInverse(i: int, n: int)
    requires 0 <= i < n
    ensures PrevIndex(NextIndex(i, n), n) == i
    ensures NextIndex(PrevIndex(i, n), n) == i
  {
  }

  /** The arrows and the thumbnail strip are shown only for more than one image. */
  predicate ControlsVisible(gallery: seq<string>) {
    |gallery| > 1
  }

  /** With a single image both arrows would stay on it, so hiding them loses nothing. */
  lemma SingleImageArrowsStay(gallery: seq<string>)
    requires |gallery| == 1
    ensures NextIndex(0, |gallery|) == 0 && PrevIndex(0, |gallery|) == 0
  {
  }

  /** Starting past the end of a gallery whose arrows are shown, "next" moves further away
      and never wraps. */
  lemma {:induction false} NextNeverWrapsFromOutside(i: int, n: int, k: nat)
    requires n > 1 && i >= n
    ensures Iterate(i, n, k) == i + k
    decreases k
  {
    if k > 0 {
      NextNeverWrapsFromOutside(i, n, k - 1);
    }
  }

  /** `k` presses of "next" from index `i`. */
  function Iterate(i: int, n: int, k: nat): int
    decreases k
  {
    if k == 0 then i else NextIndex(Iterate(i, n, k - 1), n)
  }

  /** How many similar properties the page shows. */
  const SimilarCount: nat := 2

  /** `POPULAR_PROPERTIES.filter(p => p.id !== property.id).slice(0, 2)`, over any list. */
  function SimilarFrom(popular: seq<Property>, current: Property): (r: seq<Property>)
    ensures |r| <= SimilarCount
    ensures forall q :: q in r ==> q in popular && q.id != current.id
    ensures |r| == Min(SimilarCount, |Filter(popular, (q: Property) => q.id != current.id)|)
    ensures r == Filter(popular, (q: Property) => q.id != current.id)[..|r|]
  {
    Take(Filter(popular, (q: Property) => q.id != current.id), SimilarCount)
  }

  /** The similar strip of the page. */
  function SimilarProperties(current: Property): seq<Property> {
    SimilarFrom(PopularProperties, current)
  }

  /** The similar strip keeps the popular properties' order: it is a subsequence of them. */
  lemma SimilarKeepsOrder(popular: seq<Property>, current: Property)
    ensures SubsequenceOf(SimilarFrom(popular, current), popular)
  {
    var f := Filter(popular, (q: Property) => q.id != current.id);
    FilterIsSubsequence(popular, (q: Property) => q.id != current.id);
    PrefixOfSubsequence(SimilarFrom(popular, current), f, popular);
  }

  /** A prefix of a subsequence is a subsequence. */
  lemma {:induction false} PrefixOfSubsequence<T>(r: seq<T>, f: seq<T>, s: seq<T>)
    requires SubsequenceOf(f, s) && |r| <= |f| && r == f[..|r|]
    ensures SubsequenceOf(r, s)
    decreases |s|
  {
    if r != [] && s != [] {
      if f[0] == s[0] && SubsequenceOf(f[1..], s[1..]) {
        PrefixOfSubsequence(r[1..], f[1..], s[1..]);
      } else {
        PrefixOfSubsequence(r, f, s[1..]);
      }
    }
  }

  /** On the page of a popular property the strip shows the next two popular ones. */
  lemma SimilarToFirstPopular()
    ensures SimilarProperties(PopularProperties[0]) == PopularProperties[1..3]
  {
    var ps := PopularProperties;
    var keep := (q: Property) => q.id != ps[0].id;
    assert ps[0].id == "p1" && ps[1].id == "p2" && ps[2].id == "p3" && ps[3].id == "p4";
    assert ps[1..][1..][1..][1..] == [];
    assert Filter(ps, keep) == ps[1..];
  }

  /** The gallery state of the page: the property shown and the image cursor. */
  class GalleryView {
    var property: Property
    var currentImgIndex: int

    /** The cursor points at an image of the shown property. */
    ghost predicate Valid()
      reads this
    {
      0 <= currentImgIndex < |GalleryImages(property)|
    }

    constructor(p: Property)
      ensures property == p && currentImgIndex == 0 && Valid()
    {
      property := p;
      currentImgIndex := 0;
    }

    /** The main image, or `None` when the cursor is past the gallery (a broken image). */
    function CurrentImage(): (img: Option<string>)
      reads this
      ensures img.Some? <==> 0 <= currentImgIndex < |GalleryImages(property)|
    {
      var g := GalleryImages(property);
      if 0 <= currentImgIndex < |g| then Some(g[currentImgIndex]) else None
    }

    /** The right arrow, drawn only for a gallery of more than one image. */
    method NextImage()
      requires ControlsVisible(GalleryImages(property))
      modifies this
      ensures property == old(property)
      ensures currentImgIndex == NextIndex(old(currentImgIndex), |GalleryImages(property)|)
      ensures old(Valid()) ==> Valid()
    {
      var n := |GalleryImages(property)|;
      currentImgIndex := if currentImgIndex == n - 1 then 0 else currentImgIndex + 1;
    }

    /** The left arrow, drawn only for a gallery of more than one image. */
    method PrevImage()
      requires ControlsVisible(GalleryImages(property))
      modifies this
      ensures property == old(property)
      ensures currentImgIndex == PrevIndex(old(currentImgIndex), |GalleryImages(property)|)
      ensures old(Valid()) ==> Valid()
    {
      var n := |GalleryImages(property)|;
      currentImgIndex := if currentImgIndex == 0 then n - 1 else currentImgIndex - 1;
    }

    /** An indicator click; the indicators are drawn one per gallery image, and only for a
        gallery of more than one image. */
    method SelectImage(idx: nat)
      requires ControlsVisible(GalleryImages(property)) && idx < |GalleryImages(property)|
      modifies this
      ensures property == old(property) && currentImgIndex == idx && Valid()
    {
      currentImgIndex := idx;
    }

    /** A new property arrives (a click in the similar strip) while the page stays mounted:
        the property changes and the cursor is kept, as the component does. */
    method ShowProperty(p: Property)
      modifies this
      ensures property == p && currentImgIndex == old(currentImgIndex)
    {
      property := p;
    }

    /** The intended behaviour: the cursor goes back to the first image. */
    method ShowPropertyReset(p: Property)
      modifies this
      ensures property == p && currentImgIndex == 0 && Valid()
    {
      property := p;
      currentImgIndex := 0;
    }
  }

  /** Viewing the last picture of a four-picture property and then opening a property with
      one image leaves the cursor past the end, and the second page draws no arrow and no
      indicator that could bring it back. */
  lemma StaleIndexOutOfRange(first: Property, second: Property)
    requires first.images == Some(["a", "b", "c", "d"])
    requires second.images == None
    ensures ControlsVisible(GalleryImages(first)) && 3 < |GalleryImages(first)|
    ensures 3 >= |GalleryImages(second)| && !ControlsVisible(GalleryImages(second))
  {
  }

  /** The same on the seed data: the fourth picture of h1, then p1. */
  lemma SeedStaleIndex()
    ensures PopularProperties[0] in SimilarProperties(HighlightedProjects[0])
    ensures 3 < |GalleryImages(HighlightedProjects[0])|
    ensures 3 >= |GalleryImages(PopularProperties[0])|
    ensures !ControlsVisible(GalleryImages(PopularProperties[0]))
  {
    var ps := PopularProperties;
    var keep := (q: Property) => q.id != HighlightedProjects[0].id;
    assert HighlightedProjects[0].id == "h1" && ps[0].id == "p1";
    assert Filter(ps, keep)[0] == ps[0];
  }
}
