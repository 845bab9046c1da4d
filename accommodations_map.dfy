/** The accommodations map container: it keeps the selected id, chooses the
    centre, forwards selections to the page and renders one of the two views
    with the same props, followed by the cluster legend. */
module AccommodationsMap {
  import opened Wrappers
  import opened Types
  import opened MapShared
  import LeafletMapView
  import GoogleMapsView
  import opened Geocoding
  import opened GeocodedAccommodations

  /** `venueCenter || VENUE_CENTER`: any coordinate object is truthy. */
  function MapCenter(venueCenter: Option<LatLng>): (c: LatLng)
    ensures venueCenter.Some? ==> c == venueCenter.value
    ensures venueCenter.None? ==> c == VENUE_CENTER
  {
    venueCenter.GetOr(VENUE_CENTER)
  }

  /** With the pipeline's venue centre, the map is centred on the venue's
      resolved location, else on its static coordinates, and on the fixed
      venue coordinates when no record is the venue. */
  lemma CenterFromHook(list: seq<Accommodation>, coords: map<string, Location>)
    ensures var center := MapCenter(VenueCenter(Merge(list, coords)));
            && (FirstVenue(list).None? ==> center == VENUE_CENTER)
            && (FirstVenue(list).Some? && list[FirstVenue(list).value].id in coords ==>
                  var c := coords[list[FirstVenue(list).value].id];
                  center == LatLng(c.lat, c.lng))
            && (FirstVenue(list).Some? && list[FirstVenue(list).value].id !in coords ==>
                  center == Position(list[FirstVenue(list).value]))
  {
    MergedVenueCenter(list, coords);
  }

  /** The view the container renders. */
  datatype MapView = GoogleView | LeafletView

  function ViewFor(provider: MapProvider): (v: MapView)
    ensures v == GoogleView <==> provider == Google
  {
    if provider == Google then GoogleView else LeafletView
  }

  /** A call of the page's optional selection callback: none when the page
      gave no callback. */
  datatype Forwarded = NotForwarded | Forwarded(id: Option<string>)

  /** One legend entry: a colour dot and the cluster's caption. */
  datatype LegendItem = LegendItem(colour: string, caption: string)

  /** The legend lists the clusters in the colour table's key order. */
  function Legend(): (items: seq<LegendItem>)
    ensures |items| == |CLUSTERS|
    ensures forall i :: 0 <= i < |items| ==>
              items[i] == LegendItem(GetMarkerColor(CLUSTERS[i]), GetClusterLabel(CLUSTERS[i]))
  {
    seq(|CLUSTERS|, i requires 0 <= i < |CLUSTERS| =>
      LegendItem(GetMarkerColor(CLUSTERS[i]), GetClusterLabel(CLUSTERS[i])))
  }

  /** Every cluster has one legend dot in its own colour, and only the
      retreat's entry has a caption. */
  lemma LegendShowsEachCluster(c: Cluster)
    ensures exists i :: 0 <= i < |Legend()| && CLUSTERS[i] == c && Legend()[i].colour == GetMarkerColor(c)
    ensures forall i :: 0 <= i < |Legend()| ==> (Legend()[i].caption != "" <==> CLUSTERS[i] == Retiro)
  {
    TablesAreTotal(c);
    var i :| 0 <= i < |CLUSTERS| && CLUSTERS[i] == c;
    assert Legend()[i].colour == GetMarkerColor(c);
    forall j | 0 <= j < |Legend()|
      ensures Legend()[j].caption != "" <==> CLUSTERS[j] == Retiro
    {
      ClusterLabels(CLUSTERS[j]);
    }
  }

  class AccommodationsMap {
    /** The id last reported by a view, or `null`. */
    var selectedId: Option<string>
    /** The provider, fixed when the component is created. */
    const provider: MapProvider

    constructor()
      ensures selectedId == None && provider == MAP_PROVIDER
    {
      selectedId := None;
      provider := MAP_PROVIDER;
    }

    /** The props both views receive. */
    function MapProps(accommodations: seq<Accommodation>, venueCenter: Option<LatLng>): (p: MapViewProps)
      reads this
      ensures p.accommodations == accommodations
      ensures p.selectedId == selectedId
      ensures p.center == MapCenter(venueCenter)
    {
      MapViewProps(accommodations, selectedId, MapCenter(venueCenter))
    }

    /** The view rendered: `provider` has no setter, so the view never changes. */
    function View(): (v: MapView)
      ensures v == GoogleView <==> provider == Google
    {
      ViewFor(provider)
    }

    /** Records a view's selection and forwards it to the page's callback,
        if it gave one. */
    method HandleSelectAccommodation(id: Option<string>, hasCallback: bool) returns (forwarded: Forwarded)
      modifies this`selectedId
      ensures selectedId == id
      ensures forwarded == if hasCallback then Forwarded(id) else NotForwarded
    {
      selectedId := id;
      forwarded := if hasCallback then Forwarded(id) else NotForwarded;
    }

    /** A click on a Google marker: the view opens its info window and the
        container selects the accommodation. */
    method ClickGoogleMarker(view: GoogleMapsView.GoogleMapsView, accom: Accommodation, hasCallback: bool)
      returns (forwarded: Forwarded)
      modifies this`selectedId, view`infoWindowAccom
      ensures view.infoWindowAccom == Some(accom) && selectedId == Some(accom.id)
      ensures forwarded == if hasCallback then Forwarded(Some(accom.id)) else NotForwarded
    {
      var selected := view.HandleMarkerClick(accom);
      forwarded := HandleSelectAccommodation(selected, hasCallback);
    }

    /** Closing the Google info window clears the selection. */
    method CloseGoogleInfoWindow(view: GoogleMapsView.GoogleMapsView, hasCallback: bool)
      returns (forwarded: Forwarded)
      modifies this`selectedId, view`infoWindowAccom
      ensures view.infoWindowAccom == None && selectedId == None
      ensures forwarded == if hasCallback then Forwarded(None) else NotForwarded
    {
      var selected := view.HandleInfoWindowClose();
      forwarded := HandleSelectAccommodation(selected, hasCallback);
    }

    /** A click on Leaflet marker `k`: the container selects its id, and with
        distinct non-empty ids the next rendering flies to that marker. */
    method ClickLeafletMarker(accommodations: seq<Accommodation>, venueCenter: Option<LatLng>,
                              k: nat, hasCallback: bool)
      returns (forwarded: Forwarded)
      requires k < |accommodations|
      modifies this`selectedId
      ensures selectedId == Some(accommodations[k].id)
      ensures forwarded == if hasCallback then Forwarded(Some(accommodations[k].id)) else NotForwarded
      ensures accommodations[k].id != "" &&
              (forall a, b :: 0 <= a < b < |accommodations| ==> accommodations[a].id != accommodations[b].id) ==>
                LeafletMapView.Render(MapProps(accommodations, venueCenter)).flyTo
                == Some(LeafletMapView.FlyTarget(Position(accommodations[k]), LeafletMapView.FLY_TO_ZOOM))
    {
      var selected := Some(LeafletMapView.Markers(accommodations)[k].id);
      forwarded := HandleSelectAccommodation(selected, hasCallback);
      if accommodations[k].id != "" &&
         forall a, b :: 0 <= a < b < |accommodations| ==> accommodations[a].id != accommodations[b].id
      {
        LeafletMapView.ClickFliesToMarker(accommodations, k);
      }
    }
  }

  /** A freshly created container renders the Google view. */
  method CreatedMapShowsGoogle() returns (m: AccommodationsMap)
    ensures fresh(m) && m.View() == GoogleView && m.selectedId == None
  {
    m := new AccommodationsMap();
  }
}
