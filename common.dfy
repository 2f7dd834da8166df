/** Shared record shapes of the site: the property listing record, its five-valued
    type, blog entries, and a small Option type for the record's optional fields. */
module Common {

  datatype Option<+T> = None | Some(value: T) {
    /** The carried value, or `default` when absent. */
    function GetOr(default: T): T {
      match this
      case Some(v) => v
      case None => default
    }
  }

  /** JavaScript's `s || fallback` for an optional string: `undefined` and the empty string
      are falsy and give the fallback; any other string is kept. */
  function OrElse(s: Option<string>, fallback: string): (r: string)
    ensures s.Some? && s.value != "" ==> r == s.value
    ensures s.None? || s.value == "" ==> r == fallback
  {
    if s.Some? && s.value != "" then s.value else fallback
  }

  /** The five property kinds a listing may have. */
  datatype PropertyType = Villa | Bungalow | Plot | Residential | Commercial

  /** The display name of a property kind, which is also the value the filters compare against. */
  function TypeName(t: PropertyType): (name: string)
    ensures |name| > 0
  {
    match t
    case Villa => "Villa"
    case Bungalow => "Bungalow"
    case Plot => "Plot"
    case Residential => "Residential"
    case Commercial => "Commercial"
  }

  lemma TypeNameInjective(a: PropertyType, b: PropertyType)
    ensures TypeName(a) == TypeName(b) <==> a == b
  {
  }

  /** A listing. The price is a display string ("₹ 75 L"), not a number. Fields that are
      optional in the record are `Option`s; an absent field differs from an empty one. */
  datatype Property = Property(
    id: string,
    title: string,
    location: string,
    price: string,
    size: Option<string>,
    kind: PropertyType,
    image: string,
    images: Option<seq<string>>,
    status: Option<string>,
    isFeatured: Option<bool>,
    description: Option<string>,
    amenities: Option<seq<string>>,
    bedBath: Option<string>,
    videoUrl: Option<string>)

  /** A blog entry; `content` is the optional HTML body. */
  datatype BlogItem = BlogItem(
    id: string,
    title: string,
    excerpt: string,
    image: string,
    date: string,
    content: Option<string>)

  function Min(a: int, b: int): (m: int)
    ensures m <= a && m <= b && (m == a || m == b)
  {
    if a <= b then a else b
  }
}
