/** The records shared by the stores. Ids and timestamps are opaque strings. */
module Types {
  import opened Wrappers

  /** A registered account; the password is kept and compared as plain text. */
  datatype User = User(id: string, email: string, password: string)

  /** A map pin. The coordinates are carried along and never computed with. */
  datatype LatLng = LatLng(lat: real, lng: real)

  /** A catalogue entry, owned by the user whose id is `userId`. */
  datatype Trip = Trip(
    id: string,
    name: string,
    description: string,
    shortDescription: string,
    province: string,
    images: seq<string>,
    tags: Option<seq<string>>,
    mapLocation: Option<LatLng>,
    userId: string,
    createdAt: string,
    updatedAt: string)

  /** What a caller supplies to create a trip: a trip without id, owner and timestamps. */
  datatype TripData = TripData(
    name: string,
    description: string,
    shortDescription: string,
    province: string,
    images: seq<string>,
    tags: Option<seq<string>>,
    mapLocation: Option<LatLng>)

  /**
   * What a caller supplies to update a trip: each content field may be absent
   * (`None`, left as it was) or present. A present optional field may carry
   * `None`, which clears it, as an explicit `undefined` does.
   */
  datatype TripPatch = TripPatch(
    name: Option<string>,
    description: Option<string>,
    shortDescription: Option<string>,
    province: Option<string>,
    images: Option<seq<string>>,
    tags: Option<Option<seq<string>>>,
    mapLocation: Option<Option<LatLng>>)

  /** The patch that supplies no field. */
  const EmptyPatch := TripPatch(None, None, None, None, None, None, None)

  /** The content fields of a trip: everything the store does not assign itself. */
  function ContentOf(t: Trip): TripData
  {
    TripData(t.name, t.description, t.shortDescription, t.province, t.images, t.tags, t.mapLocation)
  }
}
