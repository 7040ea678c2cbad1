/**
 * The editable Google Maps page: its module-level facility lists, the marker
 * and info-window lists kept in step with the filtered list, the list of
 * cards, and the viewport decisions.
 */
module EditableMap {
  import opened Wrappers
  import opened Sequences
  import opened Facilities
  import opened Text
  import opened Search
  import opened Viewports

  /** Zoom for a single shown facility, and for focusing one from the list. */
  const SingleZoom: nat := 15
  const FocusZoom: nat := 15

  /** initMap's view: Kumamoto City at zoom 12. */
  const InitialView := Centered(LatLng(32.7898, 130.7417), 12)

  /** `{ lat: facility.latitude, lng: facility.longitude }`. */
  function Position(f: Facility): LatLng
    requires Located(f)
  {
    LatLng(f.latitude.value, f.longitude.value)
  }

  /**
   * centerMapOnFacilities, called with facilities that have coordinates:
   * nothing for none, centre at zoom 15 for one, fit all of them otherwise.
   */
  function CenterDecision(fs: seq<Facility>): (a: ViewAction)
    requires forall i :: 0 <= i < |fs| ==> Located(fs[i])
    ensures a.Unchanged? <==> fs == []
    ensures a.CenterOn? <==> |fs| == 1
    ensures a.CenterOn? ==> a.at == Position(fs[0]) && a.zoom == SingleZoom
    ensures a.FitAll? ==> a.padding.None? && |a.points| == |fs|
    ensures a.FitAll? ==> forall i :: 0 <= i < |fs| ==> a.points[i] == Position(fs[i])
  {
    if |fs| == 0 then Unchanged
    else if |fs| == 1 then CenterOn(Position(fs[0]), SingleZoom)
    else FitAll(seq(|fs|, i requires 0 <= i < |fs| => Position(fs[i])), None)
  }

  /**
   * A Google Maps marker, carrying its facility as `marker.facilityData`; its
   * position is that facility's coordinates.
   */
  class Marker {
    const facility: Facility
    /** Attached to the map: `map: map` at creation, `setMap(null)` detaches. */
    var onMap: bool

    constructor (f: Facility)
      ensures facility == f && onMap
    {
      facility := f;
      onMap := true;
    }
  }

  /** The info window created with a marker; its click listener opens it on that marker. */
  class InfoWindow {
    const owner: Marker
    var open: bool

    constructor (m: Marker)
      ensures owner == m && !open
    {
      owner := m;
      open := false;
    }
  }

  function MarkedFacilities(ms: seq<Marker>): seq<Facility> {
    seq(|ms|, i requires 0 <= i < |ms| => ms[i].facility)
  }

  /** `markers.forEach(marker => marker.setMap(null))`. */
  method DetachAll(ms: seq<Marker>)
    modifies ms
    ensures forall m :: m in ms ==> !m.onMap
  {
    for i := 0 to |ms|
      invariant forall j :: 0 <= j < i ==> !ms[j].onMap
    {
      ms[i].onMap := false;
    }
  }

  /** `infoWindows.forEach(iw => iw.close())`. */
  method CloseAll(ws: seq<InfoWindow>)
    modifies ws
    ensures forall w :: w in ws ==> !w.open
  {
    for i := 0 to |ws|
      invariant forall j :: 0 <= j < i ==> !ws[j].open
    {
      ws[i].open := false;
    }
  }

  /** A card of the facility list: its id and, when it has coordinates, the position its click focuses. */
  datatype Card = Card(id: int, focusAt: Option<LatLng>)

  /** The list container: the "no facilities" message, or one card per facility. */
  datatype ListView = NoFacilities | Cards(cards: seq<Card>)

  /** displayFacilityList, without the HTML. */
  function RenderList(fs: seq<Facility>): (v: ListView)
    ensures v.NoFacilities? <==> fs == []
    ensures v.Cards? ==> |v.cards| == |fs|
    ensures v.Cards? ==> forall i :: 0 <= i < |fs| ==>
      v.cards[i].id == fs[i].id
      && (v.cards[i].focusAt.Some? <==> HasCoords(fs[i]))
      && (HasCoords(fs[i]) ==> v.cards[i].focusAt == Some(Position(fs[i])))
  {
    if fs == [] then NoFacilities
    else Cards(seq(|fs|, i requires 0 <= i < |fs| =>
      Card(fs[i].id, if HasCoords(fs[i]) then Some(Position(fs[i])) else None)))
  }

  /** The marker test of focusOnFacility: `facilityData.latitude === lat && facilityData.longitude === lng`. */
  function AtCoords(lat: real, lng: real): Facility -> bool {
    (f: Facility) => f.latitude == Some(lat) && f.longitude == Some(lng)
  }

  /** `markers.find(...)` in focusOnFacility, over the markers' facilities. */
  function FindMarkerAt(fs: seq<Facility>, lat: real, lng: real): (r: Option<nat>)
    ensures r.Some? ==> r.value < |fs| && fs[r.value].latitude == Some(lat) && fs[r.value].longitude == Some(lng)
    ensures r.Some? ==> forall j :: 0 <= j < r.value ==> !(fs[j].latitude == Some(lat) && fs[j].longitude == Some(lng))
    ensures r.None? ==> forall j :: 0 <= j < |fs| ==> !(fs[j].latitude == Some(lat) && fs[j].longitude == Some(lng))
  {
    FirstIndex(fs, AtCoords(lat, lng))
  }

  /**
   * Clicking the card of a facility with coordinates always finds a marker at
   * that position among the markers of the shown facilities.
   */
  lemma CardFocusFindsMarker(shown: seq<Facility>, i: nat)
    requires i < |shown|
    ensures RenderList(shown).Cards?
    ensures var card := RenderList(shown).cards[i];
      card.focusAt.Some? ==> FindMarkerAt(WithCoords(shown), card.focusAt.value.lat, card.focusAt.value.lng).Some?
  {
    var f := shown[i];
    if HasCoords(f) {
      KeepMember(shown, HasCoords, f);
      var placed := WithCoords(shown);
      var j :| 0 <= j < |placed| && placed[j] == f;
      assert AtCoords(f.latitude.value, f.longitude.value)(placed[j]);
    }
  }

  /**
   * Two markers at exactly the same coordinates cannot be told apart: focusing
   * the later one's position opens an earlier one.
   */
  lemma SharedCoordinatesFocusEarlier(fs: seq<Facility>, i: nat, j: nat)
    requires i < j < |fs| && Located(fs[j])
    requires fs[i].latitude == fs[j].latitude && fs[i].longitude == fs[j].longitude
    ensures var hit := FindMarkerAt(fs, Position(fs[j]).lat, Position(fs[j]).lng);
      hit.Some? && hit.value <= i
  {
  }

  /**
   * A castle with coordinates and a cafe without: searching "cas" shows the
   * castle only; the unfiltered list has two cards, the cafe's without a focus
   * target, and only the castle can get a marker.
   */
  lemma CastleAndCafe()
    ensures var castle := Facility(1, "Castle", "観光", None, None, Some(32.8), Some(130.7));
      var cafe := Facility(2, "Cafe", "飲食", None, None, None, None);
      Filter([castle, cafe], ReadCriteria(Some("cas"), None)) == [castle]
      && WithCoords([castle, cafe]) == [castle]
      && RenderList([castle, cafe]) == Cards([Card(1, Some(LatLng(32.8, 130.7))), Card(2, None)])
  {
    var castle := Facility(1, "Castle", "観光", None, None, Some(32.8), Some(130.7));
    var cafe := Facility(2, "Cafe", "飲食", None, None, None, None);
    var c := ReadCriteria(Some("cas"), None);
    assert c.term == "cas";
    assert Lower("Castle") == "castle";
    assert Passes(castle, c);
    assert Lower("Cafe") == "cafe";
    assert "cafe"[1..] == "afe" && "afe"[1..] == "fe" && "fe"[1..] == "e" && "e"[1..] == "";
    assert "cafe"[2] != "cas"[2] && "afe"[0] != 'c' && "fe"[0] != 'c' && "e"[0] != 'c';
    assert !Includes("cafe", "cas");
    assert !Passes(cafe, c);
  }

  /** The page's module-level state. */
  class MapPage {
    var allFacilities: seq<Facility>
    var filteredFacilities: seq<Facility>
    var markers: seq<Marker>
    var infoWindows: seq<InfoWindow>
    var viewport: Viewport
    /** The rendered facility list; None before the first render. */
    var list: Option<ListView>
    /** The criteria the filtered list was last computed with. */
    ghost var criteria: Criteria

    /**
     * The marker bookkeeping: markers and info windows in pairs, every tracked
     * marker attached and distinct, at most one info window open.
     */
    ghost predicate Tracked()
      reads this, markers, infoWindows
    {
      |markers| == |infoWindows|
      && (forall i :: 0 <= i < |markers| ==> infoWindows[i].owner == markers[i] && markers[i].onMap)
      && (forall i, j :: 0 <= i < j < |markers| ==> markers[i] != markers[j])
      && (forall i, j :: 0 <= i < |infoWindows| && 0 <= j < |infoWindows| && infoWindows[i].open && infoWindows[j].open ==> i == j)
    }

    /** Tracked, the filtered list derived from the full one, and one marker per placeable shown facility, in order. */
    ghost predicate Valid()
      reads this, markers, infoWindows
    {
      Tracked()
      && filteredFacilities == Filter(allFacilities, criteria)
      && MarkedFacilities(markers) == WithCoords(filteredFacilities)
    }

    /** The module-level initialisers and initMap's map creation. */
    constructor ()
      ensures Valid()
      ensures allFacilities == [] && filteredFacilities == [] && markers == [] && infoWindows == []
      ensures viewport == InitialView && list == None
    {
      allFacilities, filteredFacilities := [], [];
      markers, infoWindows := [], [];
      viewport := InitialView;
      list := None;
      criteria := NoCriteria;
    }

    /** addMarker: a new attached marker and a closed info window, pushed together. */
    method AddMarker(f: Facility)
      requires Tracked()
      modifies this
      ensures Tracked()
      ensures |markers| == |old(markers)| + 1 && markers[..|old(markers)|] == old(markers)
      ensures infoWindows[..|old(infoWindows)|] == old(infoWindows)
      ensures !infoWindows[|old(infoWindows)|].open
      ensures fresh(markers[|old(markers)|]) && fresh(infoWindows[|old(infoWindows)|])
      ensures MarkedFacilities(markers) == MarkedFacilities(old(markers)) + [f]
      ensures allFacilities == old(allFacilities) && filteredFacilities == old(filteredFacilities)
      ensures viewport == old(viewport) && list == old(list) && criteria == old(criteria)
    {
      var m := new Marker(f);
      var w := new InfoWindow(m);
      markers := markers + [m];
      infoWindows := infoWindows + [w];
      assert MarkedFacilities(markers) == MarkedFacilities(old(markers)) + [f];
    }

    /** Detach every marker, close every info window, and empty both lists (app.js lines 71-74 and 242-245). */
    method ClearMarkers()
      requires Tracked()
      modifies this, markers, infoWindows
      ensures Tracked() && markers == [] && infoWindows == []
      ensures forall m :: m in old(markers) ==> !m.onMap
      ensures forall w :: w in old(infoWindows) ==> !w.open
      ensures allFacilities == old(allFacilities) && filteredFacilities == old(filteredFacilities)
      ensures viewport == old(viewport) && list == old(list) && criteria == old(criteria)
    {
      DetachAll(markers);
      CloseAll(infoWindows);
      markers, infoWindows := [], [];
    }

    /** `facilities.forEach(f => { if (f.latitude && f.longitude) addMarker(f); })` on empty marker lists. */
    method AddPlaceableMarkers(fs: seq<Facility>)
      requires Tracked() && markers == []
      modifies this
      ensures Tracked()
      ensures MarkedFacilities(markers) == WithCoords(fs)
      ensures forall i :: 0 <= i < |markers| ==> fresh(markers[i]) && fresh(infoWindows[i])
      ensures forall i :: 0 <= i < |infoWindows| ==> !infoWindows[i].open
      ensures allFacilities == old(allFacilities) && filteredFacilities == old(filteredFacilities)
      ensures viewport == old(viewport) && list == old(list) && criteria == old(criteria)
    {
      for i := 0 to |fs|
        invariant Tracked()
        invariant MarkedFacilities(markers) == WithCoords(fs[..i])
        invariant forall j :: 0 <= j < |markers| ==> fresh(markers[j]) && fresh(infoWindows[j])
        invariant forall j :: 0 <= j < |infoWindows| ==> !infoWindows[j].open
        invariant allFacilities == old(allFacilities) && filteredFacilities == old(filteredFacilities)
        invariant viewport == old(viewport) && list == old(list) && criteria == old(criteria)
      {
        if HasCoords(fs[i]) {
          AddMarker(fs[i]);
        }
        assert fs[..i + 1] == fs[..i] + [fs[i]];
        KeepAppend(fs[..i], fs[i], HasCoords);
      }
      assert fs[..|fs|] == fs;
    }

    /**
     * updateMarkers: detach every marker, close every info window, then add one
     * marker per shown facility with truthy coordinates, and recentre on those.
     */
    method UpdateMarkers()
      requires Tracked() && filteredFacilities == Filter(allFacilities, criteria)
      modifies this, markers, infoWindows
      ensures Valid()
      ensures forall m :: m in old(markers) ==> !m.onMap
      ensures forall w :: w in old(infoWindows) ==> !w.open
      ensures forall i :: 0 <= i < |markers| ==> fresh(markers[i]) && fresh(infoWindows[i])
      ensures forall i :: 0 <= i < |infoWindows| ==> !infoWindows[i].open
      ensures viewport == Apply(old(viewport), CenterDecision(WithCoords(filteredFacilities)))
      ensures allFacilities == old(allFacilities) && filteredFacilities == old(filteredFacilities)
      ensures list == old(list) && criteria == old(criteria)
    {
      ClearMarkers();
      AddPlaceableMarkers(filteredFacilities);
      viewport := Apply(viewport, CenterDecision(WithCoords(filteredFacilities)));
    }

    /** applyFilters: recompute the shown list from the inputs, rebuild the markers, redraw the list. */
    method ApplyFilters(searchInput: Option<string>, categoryInput: Option<string>)
      requires Valid()
      modifies this, markers, infoWindows
      ensures Valid()
      ensures allFacilities == old(allFacilities)
      ensures filteredFacilities == Filter(allFacilities, ReadCriteria(searchInput, categoryInput))
      ensures forall m :: m in old(markers) ==> !m.onMap
      ensures forall w :: w in old(infoWindows) ==> !w.open
      ensures forall i :: 0 <= i < |markers| ==> fresh(markers[i]) && fresh(infoWindows[i])
      ensures forall i :: 0 <= i < |infoWindows| ==> !infoWindows[i].open
      ensures viewport == Apply(old(viewport), CenterDecision(WithCoords(filteredFacilities)))
      ensures list == Some(RenderList(filteredFacilities))
    {
      var c := ReadCriteria(searchInput, categoryInput);
      criteria := c;
      filteredFacilities := Filter(allFacilities, c);
      UpdateMarkers();
      list := Some(RenderList(filteredFacilities));
    }

    /**
     * loadFacilities, given the response's facility list (None for an error
     * response or a failed request). On success the full and shown lists both
     * become the fetched list, whatever the search inputs hold, and the markers,
     * list and view are rebuilt; otherwise nothing changes.
     */
    method LoadFacilities(response: Option<seq<Facility>>)
      requires Valid()
      modifies this, markers, infoWindows
      ensures Valid()
      ensures response.None? ==>
        allFacilities == old(allFacilities) && filteredFacilities == old(filteredFacilities)
        && markers == old(markers) && infoWindows == old(infoWindows)
        && viewport == old(viewport) && list == old(list)
        && (forall m :: m in markers ==> m.onMap)
        && (forall i :: 0 <= i < |infoWindows| ==> infoWindows[i].open == old(infoWindows[i].open))
      ensures response.Some? ==>
        allFacilities == response.value && filteredFacilities == response.value
        && (forall m :: m in old(markers) ==> !m.onMap)
        && (forall w :: w in old(infoWindows) ==> !w.open)
        && (forall i :: 0 <= i < |markers| ==> fresh(markers[i]) && fresh(infoWindows[i]))
        && (forall i :: 0 <= i < |infoWindows| ==> !infoWindows[i].open)
        && viewport == Apply(old(viewport), CenterDecision(WithCoords(response.value)))
        && list == Some(RenderList(response.value))
    {
      if response.Some? {
        allFacilities := response.value;
        filteredFacilities := allFacilities;
        criteria := NoCriteria;
        NoCriteriaKeepsAll(allFacilities);
        UpdateMarkers();
        list := Some(RenderList(filteredFacilities));
      }
    }

    /** Close every info window, then open the k-th: the marker click listener, also used by focusOnFacility. */
    method OpenOnly(k: nat)
      requires Tracked() && k < |infoWindows|
      modifies infoWindows
      ensures Tracked()
      ensures forall j :: 0 <= j < |infoWindows| ==> (infoWindows[j].open <==> j == k)
    {
      CloseAll(infoWindows);
      infoWindows[k].open := true;
      forall j | 0 <= j < |infoWindows| && j != k
        ensures infoWindows[j] != infoWindows[k]
      {
        assert infoWindows[j].owner != infoWindows[k].owner;
      }
    }

    /**
     * focusOnFacility(lat, lng): recentre at zoom 15, then, if some marker's
     * facility has exactly these coordinates, show only the first such marker's
     * info window; otherwise leave the windows as they are.
     */
    method FocusOnFacility(lat: real, lng: real)
      requires Valid()
      modifies this, infoWindows
      ensures Valid()
      ensures viewport == Centered(LatLng(lat, lng), FocusZoom)
      ensures allFacilities == old(allFacilities) && filteredFacilities == old(filteredFacilities)
      ensures markers == old(markers) && infoWindows == old(infoWindows) && list == old(list)
      ensures var hit := FindMarkerAt(MarkedFacilities(markers), lat, lng);
        if hit.Some? then forall j :: 0 <= j < |infoWindows| ==> (infoWindows[j].open <==> j == hit.value)
        else forall j :: 0 <= j < |infoWindows| ==> infoWindows[j].open == old(infoWindows[j].open)
    {
      viewport := Centered(LatLng(lat, lng), FocusZoom);
      var hit := FindMarkerAt(MarkedFacilities(markers), lat, lng);
      if hit.Some? {
        OpenOnly(hit.value);
      }
    }
  }
}
