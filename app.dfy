/** The application shell (App.tsx): which page is shown, the property or blog entry
    it shows, and the compare list of at most three properties with distinct ids. The
    list operations are functions on sequences; `AppState` holds the component's state
    fields and updates them the way the handlers call the setters. */
module App {
  import opened Common
  import opened Seqs

  /** `ViewState`. */
  datatype View = Home | PropertyDetails | Listing | BlogDetails

  /** What the component renders. */
  datatype Page = HomePage | BlogPage(blog: BlogItem) | ListingPage | DetailPage(property: Property)

  /** The greatest number of properties the compare list may hold. */
  const MaxCompared: nat := 3

  /** The notice shown when a fourth property is added. */
  const CompareLimitNotice := "You can compare up to 3 properties at a time."

  /** `isCompared(id)`: some entry of the list has this id. */
  predicate IsCompared(list: seq<Property>, id: string) {
    exists p :: p in list && p.id == id
  }

  /** No two entries of the list share an id. */
  predicate DistinctIds(list: seq<Property>) {
    forall i, j :: 0 <= i < j < |list| ==> list[i].id != list[j].id
  }

  /** The invariant the compare list keeps from its empty start. */
  predicate CompareInvariant(list: seq<Property>) {
    |list| <= MaxCompared && DistinctIds(list)
  }

  /** `list.filter(p => p.id !== id)`: every entry with this id goes, the others stay in order. */
  function WithoutId(list: seq<Property>, id: string): (r: seq<Property>)
    ensures !IsCompared(r, id)
    ensures forall p :: p in r <==> p in list && p.id != id
    ensures SubsequenceOf(r, list)
    ensures forall p: Property :: p.id != id ==> multiset(r)[p] == multiset(list)[p]
    ensures |r| <= |list|
  {
    var keep := (p: Property) => p.id != id;
    FilterIsSubsequence(list, keep);
    assert forall p: Property :: p.id != id ==> multiset(Filter(list, keep))[p] == multiset(list)[p] by {
      forall p: Property | p.id != id ensures multiset(Filter(list, keep))[p] == multiset(list)[p] {
        FilterCount(list, keep, p);
      }
    }
    Filter(list, keep)
  }

  /** The compare list after `toggleCompare(p)`: a listed id is removed; an unlisted one is
      appended unless the list is full, in which case nothing changes. */
  function Toggled(list: seq<Property>, p: Property): (r: seq<Property>)
    ensures IsCompared(list, p.id) ==> !IsCompared(r, p.id)
    ensures IsCompared(list, p.id) ==> forall q: Property :: q.id != p.id ==> (q in r <==> q in list)
    ensures IsCompared(list, p.id) ==> SubsequenceOf(r, list)
    ensures !IsCompared(list, p.id) && |list| < MaxCompared ==> r == list + [p]
    ensures !IsCompared(list, p.id) && |list| >= MaxCompared ==> r == list
  {
    if IsCompared(list, p.id) then WithoutId(list, p.id)
    else if |list| >= MaxCompared then list
    else list + [p]
  }

  /** `toggleCompare` is refused exactly when the id is new and the list is full. */
  predicate ToggleRejected(list: seq<Property>, p: Property) {
    !IsCompared(list, p.id) && |list| >= MaxCompared
  }

  /** A toggle that is not refused flips `isCompared` for that id. */
  lemma ToggleFlips(list: seq<Property>, p: Property)
    requires !ToggleRejected(list, p)
    ensures IsCompared(Toggled(list, p), p.id) <==> !IsCompared(list, p.id)
  {
    if !IsCompared(list, p.id) {
      assert p in list + [p];
    }
  }

  /** A refused toggle leaves the list as it was. */
  lemma RejectedToggleKeepsList(list: seq<Property>, p: Property)
    requires ToggleRejected(list, p)
    ensures Toggled(list, p) == list
  {
  }

  lemma DistinctIdsCons(x: Property, t: seq<Property>)
    requires DistinctIds(t)
    requires forall q :: q in t ==> q.id != x.id
    ensures DistinctIds([x] + t)
  {
    var s := [x] + t;
    forall i, j | 0 <= i < j < |s| ensures s[i].id != s[j].id {
      assert s[j] == t[j - 1];
      if i > 0 {
        assert s[i] == t[i - 1];
      }
    }
  }

  /** Filtering a list with distinct ids keeps the ids distinct. */
  lemma {:induction false} FilterKeepsDistinctIds(s: seq<Property>, keep: Property -> bool)
    requires DistinctIds(s)
    ensures DistinctIds(Filter(s, keep))
    decreases |s|
  {
    if s != [] {
      assert DistinctIds(s[1..]) by {
        forall i, j | 0 <= i < j < |s[1..]| ensures s[1..][i].id != s[1..][j].id {
          assert s[1..][i] == s[i + 1] && s[1..][j] == s[j + 1];
        }
      }
      FilterKeepsDistinctIds(s[1..], keep);
      var t := Filter(s[1..], keep);
      if keep(s[0]) {
        forall q | q in t ensures q.id != s[0].id {
          var k :| 0 <= k < |s[1..]| && s[1..][k] == q;
          assert s[k + 1] == q;
        }
        DistinctIdsCons(s[0], t);
      }
    }
  }

  /** Removing an id keeps the invariant. */
  lemma WithoutIdKeepsInvariant(list: seq<Property>, id: string)
    requires CompareInvariant(list)
    ensures CompareInvariant(WithoutId(list, id))
  {
    FilterKeepsDistinctIds(list, (p: Property) => p.id != id);
  }

  /** Toggling keeps the invariant: an append happens only below the cap and for a new id. */
  lemma ToggleKeepsInvariant(list: seq<Property>, p: Property)
    requires CompareInvariant(list)
    ensures CompareInvariant(Toggled(list, p))
  {
    if IsCompared(list, p.id) {
      WithoutIdKeepsInvariant(list, p.id);
    } else if |list| < MaxCompared {
      var r := list + [p];
      forall i, j | 0 <= i < j < |r| ensures r[i].id != r[j].id {
        assert r[i] == list[i];
        if j < |list| {
          assert r[j] == list[j];
        } else {
          assert r[j] == p && list[i] in list;
        }
      }
    }
  }

  /** The operations that change the compare list: the card toggle, the modal's remove and
      the clear buttons of the modal and of the floating bar. */
  datatype CompareOp = Toggle(p: Property) | Remove(id: string) | Clear

  function Apply(list: seq<Property>, op: CompareOp): seq<Property> {
    match op
    case Toggle(p) => Toggled(list, p)
    case Remove(id) => WithoutId(list, id)
    case Clear => []
  }

  /** The list after the operations, applied in order. */
  function Run(list: seq<Property>, ops: seq<CompareOp>): seq<Property>
    decreases |ops|
  {
    if ops == [] then list else Run(Apply(list, ops[0]), ops[1..])
  }

  lemma ApplyKeepsInvariant(list: seq<Property>, op: CompareOp)
    requires CompareInvariant(list)
    ensures CompareInvariant(Apply(list, op))
  {
    match op
    case Toggle(p) => ToggleKeepsInvariant(list, p);
    case Remove(id) => WithoutIdKeepsInvariant(list, id);
    case Clear =>
  }

  /** Every reachable compare list, starting from the empty one, keeps the invariant. */
  lemma {:induction false} RunKeepsInvariant(list: seq<Property>, ops: seq<CompareOp>)
    requires CompareInvariant(list)
    ensures CompareInvariant(Run(list, ops))
    decreases |ops|
  {
    if ops != [] {
      ApplyKeepsInvariant(list, ops[0]);
      RunKeepsInvariant(Apply(list, ops[0]), ops[1..]);
    }
  }

  lemma ReachableListsKeepInvariant(ops: seq<CompareOp>)
    ensures |Run([], ops)| <= MaxCompared && DistinctIds(Run([], ops))
  {
    RunKeepsInvariant([], ops);
  }

  /** The view dispatch: the blog page needs a selected blog and the detail page a selected
      property; every other combination renders the home page. */
  function Render(view: View, selectedProperty: Option<Property>, selectedBlog: Option<BlogItem>): (page: Page)
    ensures page.BlogPage? <==> view.BlogDetails? && selectedBlog.Some?
    ensures page.BlogPage? ==> page.blog == selectedBlog.value
    ensures page.ListingPage? <==> view.Listing?
    ensures page.DetailPage? <==> view.PropertyDetails? && selectedProperty.Some?
    ensures page.DetailPage? ==> page.property == selectedProperty.value
    ensures page.HomePage? <==> view.Home? || (view.BlogDetails? && selectedBlog.None?)
                                || (view.PropertyDetails? && selectedProperty.None?)
  {
    if view == BlogDetails && selectedBlog.Some? then BlogPage(selectedBlog.value)
    else if view == Listing then ListingPage
    else if view == PropertyDetails && selectedProperty.Some? then DetailPage(selectedProperty.value)
    else HomePage
  }

  /** The state fields of the `App` component. */
  class AppState {
    var currentView: View
    var selectedProperty: Option<Property>
    var selectedBlog: Option<BlogItem>
    var compareList: seq<Property>
    var isCompareModalOpen: bool
    var isLeadModalOpen: bool

    ghost predicate Valid()
      reads this
    {
      CompareInvariant(compareList)
    }

    constructor()
      ensures Valid()
      ensures currentView == Home && selectedProperty == None && selectedBlog == None
      ensures compareList == [] && !isCompareModalOpen && !isLeadModalOpen
    {
      currentView := Home;
      selectedProperty := None;
      selectedBlog := None;
      compareList := [];
      isCompareModalOpen := false;
      isLeadModalOpen := false;
    }

    /** The page the component renders in this state. */
    function CurrentPage(): (page: Page)
      reads this
    {
      Render(currentView, selectedProperty, selectedBlog)
    }

    /** The floating "Selected / Compare" bar shows while the list is non-empty and the
        modal is closed. */
    predicate CompareBarVisible()
      reads this
    {
      |compareList| > 0 && !isCompareModalOpen
    }

    /** `toggleCompare(p)`; `rejected` reports the "up to 3" notice. */
    method ToggleCompare(p: Property) returns (rejected: bool)
      requires Valid()
      modifies this
      ensures Valid()
      ensures compareList == Toggled(old(compareList), p)
      ensures rejected <==> ToggleRejected(old(compareList), p)
      ensures currentView == old(currentView) && selectedProperty == old(selectedProperty)
      ensures selectedBlog == old(selectedBlog)
      ensures isCompareModalOpen == old(isCompareModalOpen) && isLeadModalOpen == old(isLeadModalOpen)
    {
      ToggleKeepsInvariant(compareList, p);
      rejected := false;
      var present := exists q :: q in compareList && q.id == p.id;
      if present {
        compareList := WithoutId(compareList, p.id);
      } else {
        if |compareList| >= MaxCompared {
          rejected := true;
          return;
        }
        compareList := compareList + [p];
      }
    }

    /** The compare modal's `onRemove(id)`. */
    method RemoveCompared(id: string)
      requires Valid()
      modifies this
      ensures Valid()
      ensures compareList == WithoutId(old(compareList), id)
      ensures currentView == old(currentView) && selectedProperty == old(selectedProperty)
      ensures selectedBlog == old(selectedBlog)
      ensures isCompareModalOpen == old(isCompareModalOpen) && isLeadModalOpen == old(isLeadModalOpen)
    {
      WithoutIdKeepsInvariant(compareList, id);
      compareList := WithoutId(compareList, id);
    }

    /** `onClear` of the modal and the floating bar's clear button. */
    method ClearCompared()
      modifies this
      ensures Valid() && compareList == []
      ensures currentView == old(currentView) && selectedProperty == old(selectedProperty)
      ensures selectedBlog == old(selectedBlog)
      ensures isCompareModalOpen == old(isCompareModalOpen) && isLeadModalOpen == old(isLeadModalOpen)
    {
      compareList := [];
    }

    /** `goHome`, also every page's back button. */
    method GoHome()
      modifies this
      ensures currentView == Home && selectedProperty == None && selectedBlog == None
      ensures CurrentPage() == HomePage
      ensures compareList == old(compareList)
      ensures isCompareModalOpen == old(isCompareModalOpen) && isLeadModalOpen == old(isLeadModalOpen)
    {
      currentView := Home;
      selectedProperty := None;
      selectedBlog := None;
    }

    /** `goToDetails(property)`. */
    method GoToDetails(property: Property)
      modifies this
      ensures currentView == PropertyDetails && selectedProperty == Some(property)
      ensures CurrentPage() == DetailPage(property)
      ensures selectedBlog == old(selectedBlog) && compareList == old(compareList)
      ensures isCompareModalOpen == old(isCompareModalOpen) && isLeadModalOpen == old(isLeadModalOpen)
    {
      selectedProperty := Some(property);
      currentView := PropertyDetails;
    }

    /** `goToListing`: only the view changes. */
    method GoToListing()
      modifies this
      ensures currentView == Listing && CurrentPage() == ListingPage
      ensures selectedProperty == old(selectedProperty) && selectedBlog == old(selectedBlog)
      ensures compareList == old(compareList)
      ensures isCompareModalOpen == old(isCompareModalOpen) && isLeadModalOpen == old(isLeadModalOpen)
    {
      currentView := Listing;
    }

    /** `goToBlog(blog)`. */
    method GoToBlog(blog: BlogItem)
      modifies this
      ensures currentView == BlogDetails && selectedBlog == Some(blog)
      ensures CurrentPage() == BlogPage(blog)
      ensures selectedProperty == old(selectedProperty) && compareList == old(compareList)
      ensures isCompareModalOpen == old(isCompareModalOpen) && isLeadModalOpen == old(isLeadModalOpen)
    {
      selectedBlog := Some(blog);
      currentView := BlogDetails;
    }

    /** The floating bar's "Compare" button (`open`) and the modal's close (`!open`). */
    method SetCompareModalOpen(open: bool)
      modifies this
      ensures isCompareModalOpen == open && (open ==> !CompareBarVisible())
      ensures currentView == old(currentView) && selectedProperty == old(selectedProperty)
      ensures selectedBlog == old(selectedBlog) && compareList == old(compareList)
      ensures isLeadModalOpen == old(isLeadModalOpen)
    {
      isCompareModalOpen := open;
    }

    /** The lead form: opened by "Post Property" and by the five-second timer, closed by
        its close button. */
    method SetLeadModalOpen(open: bool)
      modifies this
      ensures isLeadModalOpen == open
      ensures currentView == old(currentView) && selectedProperty == old(selectedProperty)
      ensures selectedBlog == old(selectedBlog) && compareList == old(compareList)
      ensures isCompareModalOpen == old(isCompareModalOpen)
    {
      isLeadModalOpen := open;
    }
  }
}
