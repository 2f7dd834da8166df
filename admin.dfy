/** The admin dashboard (components/AdminDashboard.tsx): a login gate with one fixed pair
    of credentials, checked after a delay, and an "add property" form whose submission
    builds a listing record with a fallback for every empty field and then empties the
    form. */
module Admin {
  import opened Common
  import opened Text
  import Detail
  import CompareModal

  /** The only accepted credentials. */
  const AdminUser := "admin"
  const AdminPassword := "admin"

  /** The message shown after a rejected login. */
  const LoginError := "Invalid username or password. Please try again."

  /** The credential check of `handleLogin`. */
  predicate Authenticates(username: string, password: string) {
    username == AdminUser && password == AdminPassword
  }

  /** The dashboard's two panes. */
  datatype AdminTab = ListTab | AddTab

  /** `formData`. The type select always holds one of its options; `None` stands for the
      falsy value the submission's fallback guards against. */
  datatype FormData = FormData(
    title: string,
    price: string,
    location: string,
    kind: Option<PropertyType>,
    description: string,
    image: string)

  /** The form as it starts and as `handleSubmit` leaves it. */
  const EmptyForm := FormData("", "", "", Some(Plot), "", "")

  /** The text fields of the form. */
  datatype FormField = TitleField | PriceField | LocationField | DescriptionField | ImageField

  /** `{...formData, field: value}`. */
  function WithField(form: FormData, field: FormField, value: string): (f: FormData)
    ensures field == TitleField ==> f == form.(title := value)
    ensures field == PriceField ==> f == form.(price := value)
    ensures field == LocationField ==> f == form.(location := value)
    ensures field == DescriptionField ==> f == form.(description := value)
    ensures field == ImageField ==> f == form.(image := value)
  {
    match field
    case TitleField => form.(title := value)
    case PriceField => form.(price := value)
    case LocationField => form.(location := value)
    case DescriptionField => form.(description := value)
    case ImageField => form.(image := value)
  }

  const UntitledTitle := "Untitled Property"
  const UnknownLocation := "Unknown"
  const PriceOnRequest := "Price on Request"
  const PlaceholderImage := "https://picsum.photos/seed/new/600/400"

  /** `newProperty` of `handleSubmit`; `now` stands for `Date.now()`. */
  function BuildProperty(form: FormData, now: nat): (p: Property)
    ensures p.id == "prop-" + NatToString(now)
    ensures p.title != "" && p.location != "" && p.price != "" && p.image != ""
    ensures form.title != "" ==> p.title == form.title
    ensures form.location != "" ==> p.location == form.location
    ensures form.price != "" ==> p.price == form.price
    ensures form.image != "" ==> p.image == form.image
    ensures form.kind.Some? ==> p.kind == form.kind.value
    ensures form.title == "" ==> p.title == UntitledTitle
    ensures form.location == "" ==> p.location == UnknownLocation
    ensures form.price == "" ==> p.price == PriceOnRequest
    ensures form.image == "" ==> p.image == PlaceholderImage
    ensures form.kind.None? ==> p.kind == Plot
    ensures p.description == Some(form.description)
    ensures p.status == Some("For Sale") && p.isFeatured == Some(false)
    ensures p.images == (if form.image != "" then Some([form.image]) else Some([]))
    ensures p.size.None? && p.amenities.None? && p.bedBath.None? && p.videoUrl.None?
  {
    Property(
      "prop-" + NatToString(now),
      OrElse(Some(form.title), UntitledTitle),
      OrElse(Some(form.location), UnknownLocation),
      OrElse(Some(form.price), PriceOnRequest),
      None,
      form.kind.GetOr(Plot),
      OrElse(Some(form.image), PlaceholderImage),
      if form.image != "" then Some([form.image]) else Some([]),
      Some("For Sale"),
      Some(false),
      Some(form.description),
      None,
      None,
      None)
  }

  /** Rendering is injective, so different submission times give different ids. */
  lemma NatToStringInjective(a: nat, b: nat)
    requires NatToString(a) == NatToString(b)
    ensures a == b
  {
    DigitsValueOfNatToString(a);
    DigitsValueOfNatToString(b);
  }

  lemma DistinctTimesDistinctIds(f: FormData, g: FormData, t: nat, u: nat)
    requires t != u
    ensures BuildProperty(f, t).id != BuildProperty(g, u).id
  {
    var a, b := NatToString(t), NatToString(u);
    if "prop-" + a == "prop-" + b {
      assert a == ("prop-" + a)[5..] && b == ("prop-" + b)[5..];
      NatToStringInjective(t, u);
    }
  }

  /** The gallery of an added property is its single image: the upload or the placeholder. */
  lemma NewPropertyGallery(form: FormData, now: nat)
    ensures Detail.GalleryImages(BuildProperty(form, now)) == [BuildProperty(form, now).image]
  {
  }

  /** An empty description is stored as "" and the compare table shows the default text. */
  lemma EmptyDescriptionShowsDefault(form: FormData, now: nat)
    requires form.description == ""
    ensures CompareModal.DescriptionOf(BuildProperty(form, now)) == CompareModal.DefaultDescription
  {
  }

  /** The dashboard's state. `attempt` holds the credentials a pending login check will
      test: the delayed check was created with the values of the moment of submission. */
  class AdminSession {
    var activeTab: AdminTab
    var isAuthenticated: bool
    var username: string
    var password: string
    var isLoading: bool
    var error: string
    var attempt: Option<(string, string)>
    var form: FormData

    /** The spinner shows exactly while a login check is pending. */
    ghost predicate Valid()
      reads this
    {
      isLoading <==> attempt.Some?
    }

    constructor()
      ensures activeTab == ListTab && !isAuthenticated && username == "" && password == ""
      ensures !isLoading && error == "" && attempt == None && form == EmptyForm
      ensures Valid()
    {
      activeTab := ListTab;
      isAuthenticated := false;
      username := "";
      password := "";
      isLoading := false;
      error := "";
      attempt := None;
      form := EmptyForm;
    }

    /** Typing in the username box of the login form clears the error. */
    method EditUsername(u: string)
      requires !isAuthenticated
      modifies this
      ensures username == u && error == ""
      ensures password == old(password) && isAuthenticated == old(isAuthenticated)
      ensures isLoading == old(isLoading) && attempt == old(attempt)
      ensures activeTab == old(activeTab) && form == old(form)
    {
      username := u;
      error := "";
    }

    /** Typing in the password box of the login form clears the error. */
    method EditPassword(p: string)
      requires !isAuthenticated
      modifies this
      ensures password == p && error == ""
      ensures username == old(username) && isAuthenticated == old(isAuthenticated)
      ensures isLoading == old(isLoading) && attempt == old(attempt)
      ensures activeTab == old(activeTab) && form == old(form)
    {
      password := p;
      error := "";
    }

    /** `handleLogin`'s immediate part: clear the error, show the spinner, schedule the check.
        The login form is shown only while logged out, and its button is disabled while a
        check is pending. */
    method BeginLogin()
      requires Valid() && !isAuthenticated && !isLoading
      modifies this
      ensures Valid()
      ensures error == "" && isLoading && attempt == Some((username, password))
      ensures username == old(username) && password == old(password)
      ensures isAuthenticated == old(isAuthenticated)
      ensures activeTab == old(activeTab) && form == old(form)
    {
      error := "";
      isLoading := true;
      attempt := Some((username, password));
    }

    /** The delayed check: the fixed credentials log in, anything else sets the error.
        Either way the spinner stops. */
    method CompleteLogin()
      requires Valid() && attempt.Some?
      modifies this
      ensures Valid()
      ensures !isLoading && attempt == None
      ensures Authenticates(old(attempt).value.0, old(attempt).value.1) ==>
        isAuthenticated && error == old(error)
      ensures !Authenticates(old(attempt).value.0, old(attempt).value.1) ==>
        isAuthenticated == old(isAuthenticated) && error == LoginError
      ensures username == old(username) && password == old(password)
      ensures activeTab == old(activeTab) && form == old(form)
    {
      var (u, p) := attempt.value;
      if u == AdminUser && p == AdminPassword {
        isAuthenticated := true;
        isLoading := false;
      } else {
        error := LoginError;
        isLoading := false;
      }
      attempt := None;
    }

    /** The sidebar buttons, the form's cancel button and the list's add button. */
    method SelectTab(tab: AdminTab)
      requires isAuthenticated
      modifies this
      ensures activeTab == tab
      ensures isAuthenticated == old(isAuthenticated) && username == old(username)
      ensures password == old(password) && isLoading == old(isLoading)
      ensures error == old(error) && attempt == old(attempt) && form == old(form)
    {
      activeTab := tab;
    }

    /** A text field's `onChange`, and the uploaded image once it has been read. */
    method EditField(field: FormField, value: string)
      requires isAuthenticated && activeTab == AddTab
      modifies this
      ensures form == WithField(old(form), field, value)
      ensures activeTab == old(activeTab) && isAuthenticated == old(isAuthenticated)
      ensures username == old(username) && password == old(password)
      ensures isLoading == old(isLoading) && error == old(error) && attempt == old(attempt)
    {
      form := WithField(form, field, value);
    }

    /** The type select, whose options are Plot, Villa, Bungalow and Commercial. */
    method EditType(kind: PropertyType)
      requires isAuthenticated && activeTab == AddTab
      requires kind in {Plot, Villa, Bungalow, Commercial}
      modifies this
      ensures form == old(form).(kind := Some(kind))
      ensures activeTab == old(activeTab) && isAuthenticated == old(isAuthenticated)
      ensures username == old(username) && password == old(password)
      ensures isLoading == old(isLoading) && error == old(error) && attempt == old(attempt)
    {
      form := form.(kind := Some(kind));
    }

    /** `handleSubmit`: the record handed to `onAddProperty`, then back to the list with an
        empty form. The title, price and location inputs are marked required, so the
        browser submits only when none of them is empty. */
    method Submit(now: nat) returns (added: Property)
      requires isAuthenticated && activeTab == AddTab
      requires form.title != "" && form.price != "" && form.location != ""
      modifies this
      ensures added == BuildProperty(old(form), now)
      ensures activeTab == ListTab && form == EmptyForm
      ensures isAuthenticated == old(isAuthenticated) && username == old(username)
      ensures password == old(password) && isLoading == old(isLoading)
      ensures error == old(error) && attempt == old(attempt)
    {
      added := BuildProperty(form, now);
      activeTab := ListTab;
      form := EmptyForm;
    }
  }

  /** A submission without an upload stores an empty image list, so the property page
      shows the placeholder as its only image. */
  lemma NoUploadShowsPlaceholder(form: FormData, now: nat)
    requires form.image == ""
    ensures BuildProperty(form, now).images == Some([])
    ensures Detail.GalleryImages(BuildProperty(form, now)) == [PlaceholderImage]
  {
  }
}
