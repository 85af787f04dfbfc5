/** The record types shared by the map, the report form and the search panel
    (week4/lost-item-map/src/types/lost-item.ts). */
module Types {

  datatype Option<+T> = None | Some(value: T)

  /** A coordinate. The application only copies and reorders coordinates and
      never computes with them. */
  type Coord = real

  /** A map position as the map engine reports it: the pair `[lng, lat]`. */
  type LngLat = (Coord, Coord)

  /** The location stored in an item record: `{lat, lng}`. */
  datatype Location = Location(lat: Coord, lng: Coord)

  /** The closed category union '財布' | 'カバン' | '電子機器' | 'その他'. */
  datatype Category = Wallet | Bag | Electronics | Other

  /** The closed status union '未返却' | '返却済み'. */
  datatype Status = Unreturned | Returned

  /** A stored lost-item record. */
  datatype LostItem = LostItem(
    id: string,
    title: string,
    description: string,
    location: Location,
    category: Category,
    foundAt: string,
    contactInfo: string,
    status: Status)

  /** A record without its identifier (`Omit<LostItem, 'id'>`): what the report
      form hands to the map component. */
  datatype ItemReport = ItemReport(
    title: string,
    description: string,
    location: Location,
    category: Category,
    foundAt: string,
    contactInfo: string,
    status: Status)

  /** The string each category carries in the source and in stored JSON. */
  function CategoryLabel(c: Category): (name: string)
  {
    match c
    case Wallet => "財布"
    case Bag => "カバン"
    case Electronics => "電子機器"
    case Other => "その他"
  }

  /** Reads a category back from its string; anything outside the union is
      rejected. */
  function ParseCategory(s: string): (r: Option<Category>)
    ensures r.Some? ==> CategoryLabel(r.value) == s
  {
    if s == "財布" then Some(Wallet)
    else if s == "カバン" then Some(Bag)
    else if s == "電子機器" then Some(Electronics)
    else if s == "その他" then Some(Other)
    else None
  }

  /** The categories in the order the form's and the search panel's choosers
      list them. */
  const CategoryOptions: seq<Category> := [Wallet, Bag, Electronics, Other]

  lemma CategoryLabelRoundTrip(c: Category)
    ensures ParseCategory(CategoryLabel(c)) == Some(c)
  {
  }

  /** The chooser offers every category exactly once, and nothing else. */
  lemma CategoryOptionsComplete(c: Category)
    ensures c in CategoryOptions
    ensures |CategoryOptions| == 4
    ensures forall i, j :: 0 <= i < j < |CategoryOptions| ==> CategoryOptions[i] != CategoryOptions[j]
  {
  }

  /** A stored location from a clicked `[lng, lat]` pair: the pair's second
      component becomes the latitude and its first the longitude. */
  function LocationOf(p: LngLat): (loc: Location)
  {
    Location(p.1, p.0)
  }

  /** The `[lng, lat]` pair a marker is placed at for a stored location. */
  function MarkerPosition(loc: Location): (p: LngLat)
  {
    (loc.lng, loc.lat)
  }

  /** Storing a clicked position and drawing its marker again puts the marker
      back where the user clicked, and conversely. */
  lemma LocationRoundTrip(p: LngLat, loc: Location)
    ensures MarkerPosition(LocationOf(p)) == p
    ensures LocationOf(MarkerPosition(loc)) == loc
    ensures LocationOf(p).lat == p.1 && LocationOf(p).lng == p.0
  {
  }
}
