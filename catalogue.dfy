/** The static seed data the site starts from (constants.ts): the highlighted projects,
    the popular properties, their concatenation shown by the listing page, the top
    locations and the number of hero slides. */
module Catalogue {
  import opened Common

  /** A named location tile of the home page. */
  datatype LocationItem = LocationItem(id: string, name: string, image: string)

  const HighlightedProjects: seq<Property> := [
    Property("h1", "Luxury Villa/Bungalow", "Karjat, Navi Mumbai", "₹ 75 L", None, Villa,
      "https://picsum.photos/seed/villa1/600/400",
      Some(["https://picsum.photos/seed/villa1/800/600",
            "https://picsum.photos/seed/villa1_int/800/600",
            "https://picsum.photos/seed/villa1_pool/800/600",
            "https://picsum.photos/seed/villa1_garden/800/600"]),
      None, None,
      Some("A beautiful luxury villa nestled in the hills of Karjat. Experience serenity and luxury combined with modern architecture and lush green surroundings."),
      Some(["Pool", "Garden", "Security", "Clubhouse", "Jogging Track"]),
      Some("3 BHK"), Some("https://www.youtube.com/embed/lxO-6rlihSg")),
    Property("h2", "Modern Villa/Bungalow", "Karjat, Navi Mumbai", "₹ 45 L", None, Bungalow,
      "https://picsum.photos/seed/villa2/600/400",
      Some(["https://picsum.photos/seed/villa2/800/600",
            "https://picsum.photos/seed/villa2_bed/800/600"]),
      None, None,
      Some("Affordable luxury with modern amenities."),
      Some(["Clubhouse", "Gym"]),
      Some("2 BHK"), None),
    Property("h3", "Cozy Bungalow", "Khopoli Pali Road, Navi Mumbai", "₹ 25 L", None, Bungalow,
      "https://picsum.photos/seed/villa3/600/400",
      None, None, None,
      Some("Perfect weekend gateway near the city."),
      Some(["Garden", "Parking"]),
      Some("1 BHK"), None),
    Property("h4", "Hillside Retreat", "Lonavala", "₹ 1.2 Cr", None, Villa,
      "https://picsum.photos/seed/villa4/600/400",
      None, None, None,
      Some("High-end villa with panoramic views."),
      Some(["Pool", "Spa", "Concierge"]),
      Some("4 BHK"), None)
  ]

  const PopularProperties: seq<Property> := [
    Property("p1", "Residential Plot", "Alibaug, Navi Mumbai", "₹ 9 L", Some("1089 sqft"), Plot,
      "https://picsum.photos/seed/land1/600/400", None, Some("Ready Move"), None, None, None, None, None),
    Property("p2", "Villa/Bungalow", "Khopoli Pali Road", "₹ 25 L", Some("1089 sqft"), Villa,
      "https://picsum.photos/seed/villa5/600/400", None, Some("Ready Move"), None, None, None, None, None),
    Property("p3", "Residential Plot", "Khopoli Pali Road", "₹ 15 L", Some("1089 sqft"), Plot,
      "https://picsum.photos/seed/land2/600/400", None, Some("Ready Move"), None, None, None, None, None),
    Property("p4", "Residential Plot", "Navi Mumbai", "₹ 9 L", Some("1089 sqft"), Plot,
      "https://picsum.photos/seed/land3/600/400", None, Some("Ready Move"), None, None, None, None, None)
  ]

  /** The catalogue of the listing page. */
  const AllProperties: seq<Property> := HighlightedProjects + PopularProperties

  const TopLocations: seq<LocationItem> := [
    LocationItem("l1", "Uran Plots", "https://picsum.photos/seed/loc1/300/300"),
    LocationItem("l2", "Chirle Plots", "https://picsum.photos/seed/loc2/300/300"),
    LocationItem("l3", "Ranjanpada Plots", "https://picsum.photos/seed/loc3/300/300"),
    LocationItem("l4", "Vindhane Plots", "https://picsum.photos/seed/loc4/300/300")
  ]

  /** Number of slides in the hero slideshow. */
  const HeroSlideCount: nat := 3
}
