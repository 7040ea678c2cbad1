/**
 * The read-only Leaflet page: the same filter, markers for every shown facility
 * (no placeability test), a reload that appends markers, category colours for
 * the cards, and focusing a facility by id.
 */
module ReadOnlyMap {
  import opened Wrappers
  import opened Sequences
  import opened Facilities
  import opened Search
  import opened Viewports

  /** Zoom for a single shown facility, and for focusing one from the list. */
  const SingleZoom: nat := 14
  const FocusZoom: nat := 16
  /** fitBounds padding, in pixels on each axis. */
  const FitPadding: nat := 50

  /** initMap's view: Tokyo at zoom 12. */
  const InitialView := Centered(LatLng(35.6812, 139.7671), 12)

  /**
   * The number a marker position holds for a number-or-null coordinate. A
   * missing coordinate is modelled as 0; what Leaflet does with `null` is not
   * part of this model.
   */
  function ToNumber(x: Option<real>): real {
    x.GetOr(0.0)
  }

  /** The marker position modelled for `[facility.latitude, facility.longitude]`. */
  function PositionOf(f: Facility): LatLng {
    LatLng(ToNumber(f.latitude), ToNumber(f.longitude))
  }

  /** centerMapOnFacilities: nothing for none, setView at zoom 14 for one, fitBounds with padding 50 otherwise. */
  function CenterDecision(fs: seq<Facility>): (a: ViewAction)
    ensures a.Unchanged? <==> fs == []
    ensures a.CenterOn? <==> |fs| == 1
    ensures a.CenterOn? ==> a.at == PositionOf(fs[0]) && a.zoom == SingleZoom
    ensures a.FitAll? ==> a.padding == Some(FitPadding) && |a.points| == |fs|
    ensures a.FitAll? ==> forall i :: 0 <= i < |fs| ==> a.points[i] == PositionOf(fs[i])
  {
    if |fs| == 0 then Unchanged
    else if |fs| == 1 then CenterOn(PositionOf(fs[0]), SingleZoom)
    else FitAll(Positions(fs), Some(FitPadding))
  }

  function Positions(fs: seq<Facility>): seq<LatLng> {
    seq(|fs|, i requires 0 <= i < |fs| => PositionOf(fs[i]))
  }

  /** The class names of getCategoryColor's table. */
  const Palette: map<string, string> := map[
    "観光" := "bg-blue-100 text-blue-800",
    "飲食" := "bg-red-100 text-red-800",
    "宿泊" := "bg-green-100 text-green-800",
    "ショッピング" := "bg-yellow-100 text-yellow-800",
    "寺社" := "bg-purple-100 text-purple-800",
    "公園" := "bg-green-100 text-green-800",
    "その他" := "bg-gray-100 text-gray-800"
  ]

  const OtherCategory := "その他"

  /** getCategoryColor: the table's class for a listed category, the "その他" class for anything else. */
  function CategoryColor(category: string): (cls: string)
    ensures category in Palette ==> cls == Palette[category]
    ensures category !in Palette ==> cls == Palette[OtherCategory]
    ensures cls in Palette.Values
  {
    if category in Palette then Palette[category] else Palette[OtherCategory]
  }

  /** The lookup is total and lands on one of six class strings ("宿泊" and "公園" share one). */
  lemma CategoryColorRange(category: string)
    ensures CategoryColor(category) in {
      "bg-blue-100 text-blue-800", "bg-red-100 text-red-800", "bg-green-100 text-green-800",
      "bg-yellow-100 text-yellow-800", "bg-purple-100 text-purple-800", "bg-gray-100 text-gray-800" }
    ensures CategoryColor("宿泊") == CategoryColor("公園")
  {
  }

  /** A Leaflet marker: its position, and the facility whose details its bound popup shows. */
  class Marker {
    const position: LatLng
    const facility: Facility
    /** Added to the map (`addTo(map)`); `map.removeLayer(marker)` removes it. */
    var onMap: bool

    constructor (f: Facility)
      ensures position == PositionOf(f) && facility == f && onMap
    {
      position := PositionOf(f);
      facility := f;
      onMap := true;
    }
  }

  function MarkedFacilities(ms: seq<Marker>): seq<Facility> {
    seq(|ms|, i requires 0 <= i < |ms| => ms[i].facility)
  }

  function MarkerPositions(ms: seq<Marker>): seq<LatLng> {
    seq(|ms|, i requires 0 <= i < |ms| => ms[i].position)
  }

  /** `markers.forEach(marker => map.removeLayer(marker))`. */
  method RemoveAll(ms: seq<Marker>)
    modifies ms
    ensures forall m :: m in ms ==> !m.onMap
  {
    for i := 0 to |ms|
      invariant forall j :: 0 <= j < i ==> !ms[j].onMap
    {
      ms[i].onMap := false;
    }
  }

  /** A card: the id its click focuses, and its category badge's classes when it has a category. */
  datatype Card = Card(id: int, badge: Option<string>)

  datatype ListView = NoFacilities | Cards(cards: seq<Card>)

  /** displayFacilityList, without the HTML. */
  function RenderList(fs: seq<Facility>): (v: ListView)
    ensures v.NoFacilities? <==> fs == []
    ensures v.Cards? ==> |v.cards| == |fs|
    ensures v.Cards? ==> forall i :: 0 <= i < |fs| ==>
      v.cards[i].id == fs[i].id
      && (v.cards[i].badge.Some? <==> fs[i].category != "")
      && (fs[i].category != "" ==> v.cards[i].badge == Some(CategoryColor(fs[i].category)))
  {
    if fs == [] then NoFacilities
    else Cards(seq(|fs|, i requires 0 <= i < |fs| =>
      Card(fs[i].id, if fs[i].category != "" then Some(CategoryColor(fs[i].category)) else None)))
  }

  function HasId(id: int): Facility -> bool {
    (f: Facility) => f.id == id
  }

  /** `allFacilities.find(f => f.id === facilityId)`. */
  function FindFacility(fs: seq<Facility>, id: int): (r: Option<nat>)
    ensures r.Some? ==> r.value < |fs| && fs[r.value].id == id
    ensures r.Some? ==> forall j :: 0 <= j < r.value ==> fs[j].id != id
    ensures r.None? ==> forall j :: 0 <= j < |fs| ==> fs[j].id != id
  {
    FirstIndex(fs, HasId(id))
  }

  /** The marker test of focusOnFacility: `latlng.lat === facility.latitude && latlng.lng === facility.longitude`. */
  function SamePlace(f: Facility): LatLng -> bool {
    (p: LatLng) => f.latitude == Some(p.lat) && f.longitude == Some(p.lng)
  }

  /** `markers.find(...)` in focusOnFacility, over the markers' positions. */
  function FindMarkerFor(ps: seq<LatLng>, f: Facility): (r: Option<nat>)
    ensures r.Some? ==> r.value < |ps| && f.latitude == Some(ps[r.value].lat) && f.longitude == Some(ps[r.value].lng)
    ensures r.Some? ==> forall j :: 0 <= j < r.value ==> !(f.latitude == Some(ps[j].lat) && f.longitude == Some(ps[j].lng))
    ensures r.None? ==> forall j :: 0 <= j < |ps| ==> !(f.latitude == Some(ps[j].lat) && f.longitude == Some(ps[j].lng))
  {
    FirstIndex(ps, SamePlace(f))
  }

  /**
   * A facility without both coordinates never matches a marker: a marker
   * position holds numbers, and a number is never `=== null`.
   */
  lemma UnlocatedFocusFindsNoMarker(ps: seq<LatLng>, f: Facility)
    requires !Located(f)
    ensures FindMarkerFor(ps, f).None?
  {
  }

  /** With one marker per shown facility, focusing a located shown facility finds a marker at its position. */
  lemma {:induction false} LocatedFacilityFindsMarker(shown: seq<Facility>, i: nat)
    requires i < |shown| && Located(shown[i])
    ensures var hit := FindMarkerFor(Positions(shown), shown[i]);
      hit.Some? && hit.value <= i && Positions(shown)[hit.value] == PositionOf(shown[i])
  {
    assert SamePlace(shown[i])(Positions(shown)[i]);
  }

  /** Every card of the shown list names a facility that focusOnFacility finds in the full list. */
  lemma CardFocusFindsFacility(all: seq<Facility>, c: Criteria, i: nat)
    requires i < |Filter(all, c)|
    ensures RenderList(Filter(all, c)).Cards?
    ensures FindFacility(all, RenderList(Filter(all, c)).cards[i].id).Some?
  {
    var f := Filter(all, c)[i];
    FilterMember(all, c, f);
    var j :| 0 <= j < |all| && all[j] == f;
    assert HasId(f.id)(all[j]);
  }

  /** The page's module-level state, with the map's single open popup. */
  class MapView {
    var allFacilities: seq<Facility>
    var filteredFacilities: seq<Facility>
    var markers: seq<Marker>
    var viewport: Viewport
    /** The marker whose popup the map shows; Leaflet keeps at most one open. */
    var popup: Option<Marker>
    /** The rendered facility list; None before the first render. */
    var list: Option<ListView>
    /** The criteria the filtered list was last computed with. */
    ghost var criteria: Criteria

    /**
     * Every tracked marker is on the map at its facility's position, and
     * distinct; an open popup belongs to a tracked marker.
     */
    ghost predicate Tracked()
      reads this, markers
    {
      (forall i :: 0 <= i < |markers| ==> markers[i].onMap && markers[i].position == PositionOf(markers[i].facility))
      && (forall i, j :: 0 <= i < j < |markers| ==> markers[i] != markers[j])
      && (popup.Some? ==> popup.value in markers)
    }

    ghost predicate Valid()
      reads this, markers
    {
      Tracked() && filteredFacilities == Filter(allFacilities, criteria)
    }

    /** The module-level initialisers and initMap's map creation. */
    constructor ()
      ensures Valid()
      ensures allFacilities == [] && filteredFacilities == [] && markers == []
      ensures viewport == InitialView && popup == None && list == None
    {
      allFacilities, filteredFacilities, markers := [], [], [];
      viewport := InitialView;
      popup, list := None, None;
      criteria := NoCriteria;
    }

    /** addMarker: a new marker on the map, pushed onto `markers`. */
    method AddMarker(f: Facility)
      requires Tracked()
      modifies this
      ensures Tracked()
      ensures |markers| == |old(markers)| + 1 && markers[..|old(markers)|] == old(markers) && fresh(markers[|old(markers)|])
      ensures MarkedFacilities(markers) == MarkedFacilities(old(markers)) + [f]
      ensures MarkerPositions(markers) == MarkerPositions(old(markers)) + [PositionOf(f)]
      ensures allFacilities == old(allFacilities) && filteredFacilities == old(filteredFacilities)
      ensures viewport == old(viewport) && popup == old(popup) && list == old(list) && criteria == old(criteria)
    {
      var m := new Marker(f);
      markers := markers + [m];
      assert MarkedFacilities(markers) == MarkedFacilities(old(markers)) + [f];
      assert MarkerPositions(markers) == MarkerPositions(old(markers)) + [PositionOf(f)];
    }

    /** `facilities.forEach(facility => addMarker(facility))`: one marker per facility, appended in order. */
    method AddMarkers(fs: seq<Facility>)
      requires Tracked()
      modifies this
      ensures Tracked()
      ensures |markers| == |old(markers)| + |fs| && markers[..|old(markers)|] == old(markers)
      ensures forall i :: |old(markers)| <= i < |markers| ==> fresh(markers[i])
      ensures MarkedFacilities(markers) == MarkedFacilities(old(markers)) + fs
      ensures MarkerPositions(markers) == MarkerPositions(old(markers)) + Positions(fs)
      ensures allFacilities == old(allFacilities) && filteredFacilities == old(filteredFacilities)
      ensures viewport == old(viewport) && popup == old(popup) && list == old(list) && criteria == old(criteria)
    {
      for i := 0 to |fs|
        invariant Tracked()
        invariant |markers| == |old(markers)| + i && markers[..|old(markers)|] == old(markers)
        invariant forall j :: |old(markers)| <= j < |markers| ==> fresh(markers[j])
        invariant MarkedFacilities(markers) == MarkedFacilities(old(markers)) + fs[..i]
        invariant MarkerPositions(markers) == MarkerPositions(old(markers)) + Positions(fs[..i])
        invariant allFacilities == old(allFacilities) && filteredFacilities == old(filteredFacilities)
        invariant viewport == old(viewport) && popup == old(popup) && list == old(list) && criteria == old(criteria)
      {
        AddMarker(fs[i]);
        assert fs[..i + 1] == fs[..i] + [fs[i]];
        assert Positions(fs[..i + 1]) == Positions(fs[..i]) + [PositionOf(fs[i])];
      }
      assert fs[..|fs|] == fs;
    }

    /**
     * updateMarkers: remove every marker from the map (which also closes its
     * popup), then add one marker per shown facility and recentre on them.
     */
    method UpdateMarkers()
      requires Tracked() && filteredFacilities == Filter(allFacilities, criteria)
      modifies this, markers
      ensures Valid()
      ensures forall m :: m in old(markers) ==> !m.onMap
      ensures forall i :: 0 <= i < |markers| ==> fresh(markers[i])
      ensures MarkedFacilities(markers) == filteredFacilities
      ensures MarkerPositions(markers) == Positions(filteredFacilities)
      ensures popup == None
      ensures viewport == Apply(old(viewport), CenterDecision(filteredFacilities))
      ensures allFacilities == old(allFacilities) && filteredFacilities == old(filteredFacilities)
      ensures list == old(list) && criteria == old(criteria)
    {
      RemoveAll(markers);
      markers, popup := [], None;
      AddMarkers(filteredFacilities);
      viewport := Apply(viewport, CenterDecision(filteredFacilities));
    }

    /** applyFilters: recompute the shown list from the inputs, rebuild the markers, redraw the list. */
    method ApplyFilters(searchInput: Option<string>, categoryInput: Option<string>)
      requires Valid()
      modifies this, markers
      ensures Valid()
      ensures allFacilities == old(allFacilities)
      ensures filteredFacilities == Filter(allFacilities, ReadCriteria(searchInput, categoryInput))
      ensures forall m :: m in old(markers) ==> !m.onMap
      ensures forall i :: 0 <= i < |markers| ==> fresh(markers[i])
      ensures MarkedFacilities(markers) == filteredFacilities
      ensures MarkerPositions(markers) == Positions(filteredFacilities)
      ensures popup == None
      ensures viewport == Apply(old(viewport), CenterDecision(filteredFacilities))
      ensures list == Some(RenderList(filteredFacilities))
    {
      var c := ReadCriteria(searchInput, categoryInput);
      criteria := c;
      filteredFacilities := Filter(allFacilities, c);
      UpdateMarkers();
      list := Some(RenderList(filteredFacilities));
    }

    /**
     * loadFacilities, given the response's facility list (None for an error
     * response or a failed request). On success both lists become the fetched
     * list and one marker per fetched facility is APPENDED: the markers already
     * on the map stay. Otherwise nothing changes.
     */
    method LoadFacilities(response: Option<seq<Facility>>)
      requires Valid()
      modifies this
      ensures Valid()
      ensures response.None? ==>
        allFacilities == old(allFacilities) && filteredFacilities == old(filteredFacilities)
        && markers == old(markers) && viewport == old(viewport) && popup == old(popup) && list == old(list)
      ensures response.Some? ==>
        allFacilities == response.value && filteredFacilities == response.value
        && |markers| == |old(markers)| + |response.value| && markers[..|old(markers)|] == old(markers)
        && (forall i :: |old(markers)| <= i < |markers| ==> fresh(markers[i]))
        && MarkedFacilities(markers) == MarkedFacilities(old(markers)) + response.value
        && MarkerPositions(markers) == MarkerPositions(old(markers)) + Positions(response.value)
        && popup == old(popup)
        && viewport == Apply(old(viewport), CenterDecision(response.value))
        && list == Some(RenderList(response.value))
    {
      if response.Some? {
        allFacilities := response.value;
        filteredFacilities := allFacilities;
        criteria := NoCriteria;
        NoCriteriaKeepsAll(allFacilities);
        AddMarkers(allFacilities);
        viewport := Apply(viewport, CenterDecision(allFacilities));
        list := Some(RenderList(allFacilities));
      }
    }

    /**
     * focusOnFacility(id): nothing if no facility in the FULL list has this id;
     * otherwise setView on the first such facility at zoom 16, and open the
     * popup of the first marker at exactly its coordinates, if any.
     */
    method FocusOnFacility(id: int)
      requires Valid()
      modifies this
      ensures Valid()
      ensures allFacilities == old(allFacilities) && filteredFacilities == old(filteredFacilities)
      ensures markers == old(markers) && list == old(list)
      ensures var k := FindFacility(allFacilities, id);
        if k.None? then viewport == old(viewport) && popup == old(popup)
        else
          var f := allFacilities[k.value];
          var hit := FindMarkerFor(MarkerPositions(markers), f);
          viewport == Centered(PositionOf(f), FocusZoom)
          && popup == (if hit.Some? then Some(markers[hit.value]) else old(popup))
    {
      var k := FindFacility(allFacilities, id);
      if k.Some? {
        var f := allFacilities[k.value];
        viewport := Centered(PositionOf(f), FocusZoom);
        var hit := FindMarkerFor(MarkerPositions(markers), f);
        if hit.Some? {
          popup := Some(markers[hit.value]);
        }
      }
    }
  }

  /**
   * initMap, a successful loadFacilities of one facility with coordinates,
   * then a click on its card: the view moves to the facility and its marker's
   * popup opens.
   */
  method LoadThenFocus(f: Facility) returns (v: MapView)
    requires Located(f)
    ensures v.viewport == Centered(PositionOf(f), FocusZoom)
    ensures v.popup.Some? && v.popup.value.facility == f && v.popup.value.position == PositionOf(f)
  {
    v := new MapView();
    v.LoadFacilities(Some([f]));
    assert MarkedFacilities(v.markers) == [f] && MarkerPositions(v.markers) == [PositionOf(f)];
    var m := v.markers[0];
    assert m.facility == f && v.allFacilities[0] == f;
    assert FindMarkerFor(MarkerPositions(v.markers), f) == Some(0);
    v.FocusOnFacility(f.id);
  }
}
