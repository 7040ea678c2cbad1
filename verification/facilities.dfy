/**
 * The facility record as the backend's list endpoint returns it, and the
 * placeability test both front-ends apply to it.
 */
module Facilities {
  import opened Wrappers
  import opened Sequences

  /**
   * One facility. A JSON `null` field is `None`; an absent category is "".
   * Coordinates are numbers; phone, website and image_url only feed the HTML
   * and are not part of the model.
   */
  datatype Facility = Facility(
    id: int,
    name: string,
    category: string,
    description: Option<string>,
    address: Option<string>,
    latitude: Option<real>,
    longitude: Option<real>)

  /** JavaScript truthiness of a numeric field: present and not zero. */
  predicate Truthy(x: Option<real>) {
    x.Some? && x.value != 0.0
  }

  /** Both coordinates are present (possibly zero). */
  predicate Located(f: Facility) {
    f.latitude.Some? && f.longitude.Some?
  }

  /** `facility.latitude && facility.longitude`: the editable page's placeability test. */
  predicate HasCoords(f: Facility) {
    Truthy(f.latitude) && Truthy(f.longitude)
  }

  /** `facilities.filter(f => f.latitude && f.longitude)`. */
  function WithCoords(fs: seq<Facility>): (r: seq<Facility>)
    ensures forall i :: 0 <= i < |r| ==> HasCoords(r[i]) && Located(r[i])
  {
    Keep(fs, HasCoords)
  }
}
