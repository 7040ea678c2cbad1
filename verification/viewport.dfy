/**
 * The map viewport as the controllers see it: a centre and zoom, or a fit to a
 * set of points. Bounds arithmetic is the map library's and is not modelled.
 */
module Viewports {
  import opened Wrappers

  datatype LatLng = LatLng(lat: real, lng: real)

  /** What a recentring step asks of the map library. */
  datatype ViewAction =
    | Unchanged
    | CenterOn(at: LatLng, zoom: nat)
    | FitAll(points: seq<LatLng>, padding: Option<nat>)   // None: the library's default padding

  /** The map's current view. */
  datatype Viewport =
    | Centered(center: LatLng, zoom: nat)
    | Fitted(points: seq<LatLng>, padding: Option<nat>)

  function Apply(v: Viewport, a: ViewAction): Viewport {
    match a
    case Unchanged => v
    case CenterOn(at, zoom) => Centered(at, zoom)
    case FitAll(points, padding) => Fitted(points, padding)
  }
}
